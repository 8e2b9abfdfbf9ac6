/** The sender's residues mod 16 stand for unbounded packet indices: it holds exactly
    packets Base .. packetId - 1 and sends exactly what is due. */
module SenderIndices {
  import opened Bits
  import opened Window
  import opened Wire
  import opened Segments
  import opened SendFile

  /** Every packet id of the file fits into 32 bits. */
  predicate Sized(file: seq<Byte>) {
    Total(file) < 0x1_0000_0000
  }

  /** Index of the oldest packet that is not acknowledged. */
  function Base(s: Sender): int {
    s.packetId - |s.queue|
  }

  /** Packets Base .. packetId - 1 of the file are queued, and the residues, the read
      position and the last window agree with that. */
  ghost predicate Indexed(file: seq<Byte>, s: Sender) {
    && 0 <= Base(s) < Total(file) && s.packetId <= Total(file)
    && s.laSeq == SeqNum(Base(s))
    && (forall i :: 0 <= i < |s.queue| ==> s.queue[i] == PacketOf(file, Base(s) + i))
    && s.filePos == Min(s.packetId * BUFLEN, |file|)
    && s.lastWindow == if s.packetId == Total(file) then SeqNum(Total(file) - 1) else -1
  }

  // ---------------------------------------------------------------- time-outs and acknowledgements

  lemma TimeoutsIndexed(file: seq<Byte>, s: AlignedSender, expired: seq<bool>)
    requires Indexed(file, s) && |expired| == SEQ_LEN
    ensures Indexed(file, CheckTimeout(s, expired))
  {
  }

  /** Only the acknowledgement of the whole file carries the last sequence number. */
  lemma LastAck(file: seq<Byte>, s: AlignedSender, pos: nat)
    requires Indexed(file, s) && Base(s) < pos <= s.packetId
    ensures AckNum(pos) == s.lastWindow <==> pos == Total(file)
  {
  }

  lemma AdvanceIndexed(file: seq<Byte>, s: AlignedSender, pos: nat)
    requires Indexed(file, s) && Base(s) < pos <= s.packetId && pos < Total(file)
    requires MapToWindow(s.laSeq, AckNum(pos)) == pos - 1 - Base(s)
    ensures Indexed(file, Advance(s, AckNum(pos))) && Base(Advance(s, AckNum(pos))) == pos
  {
    hide PacketOf, Cleared;
    AckNumIsPrevious(pos);
    var t := Advance(s, AckNum(pos));
    assert t.queue == s.queue[pos - Base(s)..];
  }

  /** An acknowledgement of position pos, read with the base at or below pos, moves the
      base to exactly pos; it ends the transfer exactly if pos is the whole file. */
  lemma AckMovesBase(file: seq<Byte>, s: AlignedSender, pos: nat, stamp: nat)
    requires Indexed(file, s) && Base(s) <= pos <= s.packetId && stamp > s.lastAckTime
    ensures var (t, outcome) := HandleAck(s, AckNum(pos), stamp);
      && t.lastAckTime == stamp && t.packetId == s.packetId && Indexed(file, t)
      && (outcome == Finished <==> pos == Total(file)) && outcome != Skipped
      && (outcome == Handled ==> Base(t) == pos)
      && (outcome == Finished ==> t == s.(lastAckTime := stamp))
  {
    hide PacketOf, Advance;
    AckExact(Base(s), pos);
    var t: AlignedSender := s.(lastAckTime := stamp);
    if pos > Base(s) {
      LastAck(file, s, pos);
      if pos < Total(file) {
        AdvanceIndexed(file, t, pos);
        AdvanceKeeps(t, AckNum(pos));
      }
    }
  }

  lemma AdvanceKeeps(s: AlignedSender, num: nat)
    requires num < SEQ_LEN && MapToWindow(s.laSeq, num) < WINDOW_LEN
    ensures Advance(s, num).lastAckTime == s.lastAckTime && Advance(s, num).packetId == s.packetId
  {
  }

  // ---------------------------------------------------------------- filling the window

  /** Slot i of an unfinished window lies below the end of the file. */
  lemma SlotInFile(file: seq<Byte>, s: AlignedSender, i: nat)
    requires Indexed(file, s) && s.laSeq <= i < s.laSeq + WINDOW_LEN
    requires !Stops(s, i) && i - s.laSeq >= |s.queue|
    ensures s.packetId < Total(file)
  {
  }

  lemma NextIsPacketOf(file: seq<Byte>, s: AlignedSender, i: nat)
    requires Indexed(file, s) && Sized(file) && s.packetId < Total(file)
    requires s.laSeq <= i < s.laSeq + WINDOW_LEN && i - s.laSeq == |s.queue|
    ensures NextPacket(file, s.filePos, s.packetId, SeqNum(i)) == PacketOf(file, s.packetId)
  {
    SeqNumAdd(Base(s), i - s.laSeq);
    ReadContinues(file, s.packetId);
  }

  lemma AppendIndexed(file: seq<Byte>, s: AlignedSender, p: Packet, k: nat)
    requires Indexed(file, s) && s.packetId < Total(file) && p == PacketOf(file, s.packetId)
    requires k == SeqNum(s.packetId) && MapToWindow(s.laSeq, k) == |s.queue| < WINDOW_LEN
    ensures Indexed(file, Append(s, p, k)) && Base(Append(s, p, k)) == Base(s)
  {
    hide Payload, Total;
    var n := s.packetId;
    ReadContinues(file, n);
    OnlyLastIsShort(file, n);
    assert p.id == n + 1 && p.payload == Payload(file, n);
    hide PacketOf;
  }

  lemma OutgoingWhole(p: Packet)
    ensures Outgoing(p, |p.payload|) == p
  {
  }

  /** Index of the packet that belongs to unwrapped slot i. */
  function SlotIndex(s: Sender, i: nat): int {
    Base(s) + i - s.laSeq
  }

  /** A free slot is filled with the next packet of the file. */
  lemma NewSlotEffect(file: seq<Byte>, s: AlignedSender, i: nat)
    requires Indexed(file, s) && Sized(file)
    requires s.laSeq <= i < s.laSeq + WINDOW_LEN && i - s.laSeq <= |s.queue| && !Stops(s, i)
    requires s.alarms[SeqNum(i)].isSet == 0
    ensures SlotIndex(s, i) == s.packetId < Total(file)
    ensures FillSlot(s, file, i) == (Append(s, PacketOf(file, s.packetId), SeqNum(i)), [PacketOf(file, s.packetId)])
    ensures Indexed(file, FillSlot(s, file, i).0) && Base(FillSlot(s, file, i).0) == Base(s)
  {
    hide PacketOf, NextPacket, Append;
    SlotOffset(s.laSeq, i);
    SeqNumAdd(Base(s), i - s.laSeq);
    SlotInFile(file, s, i);
    NextIsPacketOf(file, s, i);
    AppendIndexed(file, s, PacketOf(file, s.packetId), SeqNum(i));
  }

  /** A timed-out slot sends its packet again, unchanged. */
  lemma ResendEffect(file: seq<Byte>, s: AlignedSender, i: nat)
    requires Indexed(file, s) && s.laSeq <= i < s.laSeq + WINDOW_LEN
    requires s.alarms[SeqNum(i)].isSet == 2
    ensures Base(s) <= SlotIndex(s, i) < s.packetId
    ensures FillSlot(s, file, i) == (Restart(s, SeqNum(i)), [PacketOf(file, SlotIndex(s, i))])
    ensures Indexed(file, FillSlot(s, file, i).0) && Base(FillSlot(s, file, i).0) == Base(s)
  {
    hide PacketOf, Outgoing;
    SlotOffset(s.laSeq, i);
    OutgoingWhole(s.queue[i - s.laSeq]);
  }

  /** What a visited slot does, in terms of indices. */
  lemma SlotEffect(file: seq<Byte>, s: AlignedSender, i: nat)
    requires Indexed(file, s) && Sized(file)
    requires s.laSeq <= i < s.laSeq + WINDOW_LEN && i - s.laSeq <= |s.queue| && !Stops(s, i)
    ensures var (t, out) := FillSlot(s, file, i);
      && Indexed(file, t) && Base(t) == Base(s) <= SlotIndex(s, i) < t.packetId
      && t.packetId == (if SlotIndex(s, i) == s.packetId then s.packetId + 1 else s.packetId)
      && out == (if s.alarms[SeqNum(i)].isSet == 1 then [] else [PacketOf(file, SlotIndex(s, i))])
      && t.alarms[SeqNum(i)].isSet == 1 && t.lastAckTime == s.lastAckTime
      && forall k :: 0 <= k < SEQ_LEN && k != SeqNum(i) ==> t.alarms[k] == s.alarms[k]
  {
    SlotOffset(s.laSeq, i);
    if s.alarms[SeqNum(i)].isSet == 0 {
      NewSlotEffect(file, s, i);
      assert PacketOf(file, s.packetId).id == s.packetId + 1;
    } else if s.alarms[SeqNum(i)].isSet == 2 {
      ResendEffect(file, s, i);
    }
    hide PacketOf, FillSlot, Indexed;
  }

  /** The loop test compares an unwrapped slot with a wrapped sequence number. */
  predicate Stalled(s: Sender) {
    s.lastWindow != -1 && s.laSeq > s.lastWindow
  }

  /** Does no window that reaches the last packet cross the wrap? The file's size alone
      decides: at most 16 packets, or a last sequence number of at least 7. */
  predicate NoCross(file: seq<Byte>) {
    Total(file) <= SEQ_LEN || SeqNum(Total(file) - 1) >= WINDOW_LEN - 1
  }

  /** Within a window that reaches the last packet, sequence numbers grow exactly if the
      wrap is not crossed. */
  lemma LastWindowOrder(file: seq<Byte>, b: nat)
    requires b < Total(file) <= b + WINDOW_LEN
    ensures NoCross(file) ==> SeqNum(b) <= SeqNum(Total(file) - 1)
    ensures !NoCross(file) && b == Total(file) - WINDOW_LEN ==> SeqNum(b) > SeqNum(Total(file) - 1)
  {
    var last := Total(file) - 1;
    hide Total;
  }

  lemma NoCrossNeverStalls(file: seq<Byte>, s: AlignedSender)
    requires Indexed(file, s) && NoCross(file)
    ensures !Stalled(s)
  {
    hide NoCross;
    if Stalled(s) {
      LastWindowOrder(file, Base(s));
    }
  }

  /** When the last packet's sequence number has wrapped below the base, the window
      loop sends nothing, whatever has timed out. */
  lemma StalledSendsNothing(s: AlignedSender, file: seq<Byte>)
    requires Stalled(s)
    ensures SendWindow(s, file) == (s, [])
  {
    FillEnds(s, file, s.laSeq);
  }

  /** A slot is passed over exactly from the end of the file on. */
  lemma StopsExactly(file: seq<Byte>, s: AlignedSender, i: nat)
    requires Indexed(file, s) && !Stalled(s) && s.laSeq <= i <= s.laSeq + WINDOW_LEN
    ensures Stops(s, i) <==> s.packetId == Total(file) && Base(s) + (i - s.laSeq) >= Total(file)
  {
  }

  /** The packets of the first n window slots that are due, in order: those timed out
      and those never sent. */
  function Due(file: seq<Byte>, s: AlignedSender, n: nat): seq<Packet>
    requires Base(s) >= 0
  {
    if n == 0 then [] else Due(file, s, n - 1) + DueAt(file, s, n - 1)
  }

  function DueAt(file: seq<Byte>, s: AlignedSender, w: nat): seq<Packet>
    requires Base(s) >= 0
  {
    if s.alarms[SeqNum(s.laSeq + w)].isSet == 1 then [] else [PacketOf(file, Base(s) + w)]
  }

  /** t is s after its first n slots were served. */
  ghost predicate Served(file: seq<Byte>, s: AlignedSender, n: nat, t: AlignedSender) {
    && Indexed(file, t) && Base(t) == Base(s) && t.laSeq == s.laSeq && t.lastAckTime == s.lastAckTime
    && t.packetId == (if Base(s) + n > s.packetId then Base(s) + n else s.packetId)
    && forall k :: 0 <= k < SEQ_LEN ==>
         if MapToWindow(s.laSeq, k) < n then t.alarms[k].isSet == 1 else t.alarms[k] == s.alarms[k]
  }

  /** Number of window slots below i that lie in the file. */
  function Slots(file: seq<Byte>, s: AlignedSender, i: nat): (n: nat)
    requires s.laSeq <= i && Base(s) <= Total(file)
  {
    if i - s.laSeq <= Total(file) - Base(s) then i - s.laSeq else Total(file) - Base(s)
  }

  lemma ServeStops(file: seq<Byte>, s: AlignedSender, i: nat, t: AlignedSender)
    requires Indexed(file, s) && !Stalled(s) && s.laSeq <= i < s.laSeq + WINDOW_LEN
    requires Served(file, s, Slots(file, s, i), t)
    ensures Stops(t, i) <==> Base(s) + i - s.laSeq >= Total(file)
  {
  }

  lemma ServeSlot(file: seq<Byte>, s: AlignedSender, i: nat, t: AlignedSender)
    requires Indexed(file, s) && Sized(file) && s.laSeq <= i < s.laSeq + WINDOW_LEN
    requires Base(s) + i - s.laSeq < Total(file) && Served(file, s, i - s.laSeq, t) && !Stops(t, i)
    ensures i - s.laSeq <= |t.queue|
    ensures Served(file, s, i + 1 - s.laSeq, FillSlot(t, file, i).0)
    ensures FillSlot(t, file, i).1 == DueAt(file, s, i - s.laSeq)
  {
    hide FillSlot, PacketOf, Indexed, Total, Sized, Stops;
    SlotEffect(file, t, i);
    ServedNext(file, s, i, t, FillSlot(t, file, i).0);
  }

  lemma ServedNext(file: seq<Byte>, s: AlignedSender, i: nat, t: AlignedSender, u: AlignedSender)
    requires s.laSeq <= i < s.laSeq + WINDOW_LEN && Served(file, s, i - s.laSeq, t)
    requires Indexed(file, u) && Base(u) == Base(t) && u.laSeq == t.laSeq && u.lastAckTime == t.lastAckTime
    requires u.packetId == if SlotIndex(t, i) == t.packetId then t.packetId + 1 else t.packetId
    requires u.alarms[SeqNum(i)].isSet == 1
    requires forall k :: 0 <= k < SEQ_LEN && k != SeqNum(i) ==> u.alarms[k] == t.alarms[k]
    ensures Served(file, s, i + 1 - s.laSeq, u)
    ensures t.alarms[SeqNum(i)] == s.alarms[SeqNum(i)]
  {
    hide Indexed;
    SlotOffset(s.laSeq, i);
  }

  lemma FillNext(s: AlignedSender, file: seq<Byte>, i: nat)
    requires s.laSeq < i <= s.laSeq + WINDOW_LEN
    ensures var (t, sent) := FillTo(s, file, i - 1);
      FillTo(s, file, i) == if Stops(t, i - 1) then (t, sent)
                            else (FillSlot(t, file, i - 1).0, sent + FillSlot(t, file, i - 1).1)
  {
  }

  /** Unless it is stalled, one pass of the window loop sends exactly what is due of the
      window's part of the file, and extends the window as far as it can. */
  lemma {:induction false} FillExactly(file: seq<Byte>, s: AlignedSender, i: nat)
    requires Indexed(file, s) && Sized(file) && !Stalled(s) && s.laSeq <= i <= s.laSeq + WINDOW_LEN
    ensures Served(file, s, Slots(file, s, i), FillTo(s, file, i).0)
    ensures FillTo(s, file, i).1 == Due(file, s, Slots(file, s, i))
  {
    hide FillSlot, PacketOf, Indexed, DueAt, Served, Stalled, Total;
    InFile(file, s);
    if i > s.laSeq {
      FillExactly(file, s, i - 1);
      FillNext(s, file, i);
      var t := FillTo(s, file, i - 1).0;
      ServeStops(file, s, i - 1, t);
      hide FillTo, Stops;
      if Base(s) + (i - 1) - s.laSeq < Total(file) {
        ServeSlot(file, s, i - 1, t);
      }
    } else {
      Unserved(file, s);
    }
  }

  lemma InFile(file: seq<Byte>, s: AlignedSender)
    requires Indexed(file, s)
    ensures 0 <= Base(s) < Total(file)
  {
  }

  lemma Unserved(file: seq<Byte>, s: AlignedSender)
    requires Indexed(file, s)
    ensures Served(file, s, 0, s)
  {
  }

  /** Everything handed to the network is a packet of the file that was read before. */
  lemma {:induction false} SentArePackets(file: seq<Byte>, s: AlignedSender, i: nat)
    requires Indexed(file, s) && Sized(file) && s.laSeq <= i <= s.laSeq + WINDOW_LEN
    ensures var (t, sent) := FillTo(s, file, i);
      && Indexed(file, t) && Base(t) == Base(s) && t.packetId >= s.packetId && t.lastAckTime == s.lastAckTime
      && forall p <- sent :: FromFile(file, t.packetId, p)
  {
    hide FillSlot, PacketOf, Indexed, Total;
    if i <= s.laSeq {
    } else {
      SentArePackets(file, s, i - 1);
      var (t, sent) := FillTo(s, file, i - 1);
      if !Stops(t, i - 1) {
        SlotEffect(file, t, i - 1);
        InFile(file, t);
        var (u, out) := FillSlot(t, file, i - 1);
        forall p <- sent + out
          ensures FromFile(file, u.packetId, p)
        {
          if p in sent {
            FromFileMore(file, t.packetId, u.packetId, p);
          } else {
            var j: nat := SlotIndex(t, i - 1);
            FromFileAt(file, u.packetId, j);
          }
        }
      }
    }
  }

  /** Is p one of the first n packets of the file? */
  ghost predicate FromFile(file: seq<Byte>, n: nat, p: Packet) {
    exists j: nat :: j < n && p == PacketOf(file, j)
  }

  lemma FromFileAt(file: seq<Byte>, n: nat, j: nat)
    requires j < n
    ensures FromFile(file, n, PacketOf(file, j))
  {
  }

  lemma FromFileMore(file: seq<Byte>, n: nat, m: nat, p: Packet)
    requires FromFile(file, n, p) && n <= m
    ensures FromFile(file, m, p)
  {
  }
}
