/** The sender of project2/sendfile.c: acknowledgements, time-outs, window filling. */
module SendFile {
  import opened Bits
  import opened Window
  import opened Wire
  import opened Segments
  import opened FixQueue
  import opened Stamps
  import opened Words

  /** isSet: 0 not used, 1 waiting for an acknowledgement, 2 timed out. */
  datatype Alarm = Alarm(isSet: nat, size: nat)

  datatype Sender = Sender(laSeq: nat, lastWindow: int, packetId: nat, lastAckTime: nat,
                           alarms: seq<Alarm>, queue: seq<Packet>, filePos: nat)

  datatype Outcome = Finished | Skipped | Handled

  /** The sender as it enters its transfer loop. */
  function Start(lastAckTime: nat): Sender {
    Sender(0, -1, 0, lastAckTime, seq(SEQ_LEN, _ => Alarm(0, 0)), [], 0)
  }

  /** The queue holds one packet for every set alarm: node j belongs to the j-th
      sequence number of the window. */
  predicate Aligned(s: Sender) {
    && s.laSeq < SEQ_LEN && |s.alarms| == SEQ_LEN && |s.queue| <= WINDOW_LEN
    && -1 <= s.lastWindow < SEQ_LEN
    && (forall k :: 0 <= k < SEQ_LEN ==>
          && s.alarms[k].isSet <= 2
          && (s.alarms[k].isSet != 0 <==> MapToWindow(s.laSeq, k) < |s.queue|))
    && (forall k :: 0 <= k < SEQ_LEN && s.alarms[k].isSet != 0 ==>
          s.alarms[k].size == |s.queue[MapToWindow(s.laSeq, k)].payload|)
  }

  type AlignedSender = s: Sender | Aligned(s) witness Start(0)

  // ---------------------------------------------------------------- specification

  function LateAlarm(a: Alarm, late: bool): Alarm {
    if a.isSet != 0 && late then a.(isSet := 2) else a
  }

  /** The alarms after the first n window slots were looked at for time-outs. */
  function Expired(alarms: seq<Alarm>, laSeq: nat, expired: seq<bool>, n: nat): (r: seq<Alarm>)
    requires |alarms| == |expired| == SEQ_LEN
    ensures |r| == SEQ_LEN
  {
    seq(SEQ_LEN, k requires 0 <= k < SEQ_LEN =>
      if MapToWindow(laSeq, k) < n then LateAlarm(alarms[k], expired[k]) else alarms[k])
  }

  /** Set alarms of the window whose time is over become time-outs. */
  function CheckTimeout(s: AlignedSender, expired: seq<bool>): AlignedSender
    requires |expired| == SEQ_LEN
  {
    s.(alarms := Expired(s.alarms, s.laSeq, expired, WINDOW_LEN))
  }

  /** The alarms after the first n window slots were cleared. */
  function Cleared(alarms: seq<Alarm>, laSeq: nat, n: nat): (r: seq<Alarm>)
    requires |alarms| == SEQ_LEN
    ensures |r| == SEQ_LEN
  {
    seq(SEQ_LEN, k requires 0 <= k < SEQ_LEN =>
      if MapToWindow(laSeq, k) < n then alarms[k].(isSet := 0) else alarms[k])
  }

  function Dropped(queue: seq<Packet>, n: nat): seq<Packet> {
    if n <= |queue| then queue[n..] else []
  }

  /** Drop the packets up to sequence number num and move the base behind it. */
  function Advance(s: AlignedSender, num: nat): AlignedSender
    requires num < SEQ_LEN && MapToWindow(s.laSeq, num) < WINDOW_LEN
  {
    var n := MapToWindow(s.laSeq, num) + 1;
    var r := s.(laSeq := SeqNum(num + 1),
                alarms := Cleared(s.alarms, s.laSeq, n),
                queue := Dropped(s.queue, n));
    BaseMoves(s.laSeq, num);
    r
  }

  function HandleAck(s: AlignedSender, num: nat, stamp: nat): (AlignedSender, Outcome)
  {
    if stamp <= s.lastAckTime then (s, Handled)
    else
      var t := s.(lastAckTime := stamp);
      if num >= SEQ_LEN then (t, Skipped)
      else if !Between(s.laSeq, SeqNum(s.laSeq + WINDOW_LEN - 1), num) then (t, Handled)
      else if num == s.lastWindow then (t, Finished)
      else (Advance(t, num), Handled)
  }

  /** What is handed to sendto for a queued packet: as many bytes as the alarm says. */
  function Outgoing(p: Packet, size: nat): Packet {
    if size <= |p.payload| then p.(payload := p.payload[..size]) else p
  }

  /** The packet that is read next, for sequence number k. */
  function NextPacket(file: seq<Byte>, filePos: nat, packetId: nat, k: nat): Packet {
    var data := Read(file, filePos, BUFLEN);
    Packet(k, Kind(data), U32(packetId + 1), data)
  }

  /** Read packet p into the free slot with sequence number k. */
  function Append(s: AlignedSender, p: Packet, k: nat): AlignedSender
    requires k < SEQ_LEN && MapToWindow(s.laSeq, k) == |s.queue| < WINDOW_LEN
  {
    s.(lastWindow := if |p.payload| < BUFLEN then k else s.lastWindow,
       packetId := p.id,
       alarms := s.alarms[k := Alarm(1, |p.payload|)],
       queue := s.queue + [p],
       filePos := s.filePos + |p.payload|)
  }

  /** Restart the alarm of a timed-out slot. */
  function Restart(s: AlignedSender, k: nat): AlignedSender
    requires k < SEQ_LEN && s.alarms[k].isSet == 2
  {
    s.(alarms := s.alarms[k := s.alarms[k].(isSet := 1)])
  }

  /** Window slot i, unwrapped: read a new packet, resend a timed-out one, or wait. */
  function FillSlot(s: AlignedSender, file: seq<Byte>, i: nat): (r: (AlignedSender, seq<Packet>))
    requires s.laSeq <= i < s.laSeq + WINDOW_LEN && i - s.laSeq <= |s.queue|
    ensures r.0.laSeq == s.laSeq && i - s.laSeq < |r.0.queue|
  {
    var k := SeqNum(i);
    assert MapToWindow(s.laSeq, k) == i - s.laSeq;
    if s.alarms[k].isSet == 0 then
      var p := NextPacket(file, s.filePos, s.packetId, k);
      (Append(s, p, k), [p])
    else if s.alarms[k].isSet == 2 then
      (Restart(s, k), [Outgoing(s.queue[i - s.laSeq], s.alarms[k].size)])
    else (s, [])
  }

  /** The loop test: has slot i passed the last packet? The slot is unwrapped, the
      sequence number of the last packet is not. */
  predicate Stops(s: Sender, i: nat) {
    s.lastWindow != -1 && i > s.lastWindow
  }

  /** The window loop up to slot i: the state and the packets sent so far. */
  function FillTo(s: AlignedSender, file: seq<Byte>, i: nat): (r: (AlignedSender, seq<Packet>))
    requires s.laSeq <= i <= s.laSeq + WINDOW_LEN
    ensures r.0.laSeq == s.laSeq
    ensures Stops(r.0, i) || i - s.laSeq <= |r.0.queue|
  {
    if i == s.laSeq then (s, [])
    else
      var (t, sent) := FillTo(s, file, i - 1);
      if Stops(t, i - 1) then (t, sent)
      else
        var (u, out) := FillSlot(t, file, i - 1);
        (u, sent + out)
  }

  function SendWindow(s: AlignedSender, file: seq<Byte>): (AlignedSender, seq<Packet>) {
    FillTo(s, file, s.laSeq + WINDOW_LEN)
  }

  /** One pass of the main loop, with the acknowledgement that was read, if any. */
  function PassAck(file: seq<Byte>, s: AlignedSender, expired: seq<bool>, ack: Option<Ack>): (AlignedSender, Outcome,
          seq<Packet>)
    requires |expired| == SEQ_LEN
  {
    var t := CheckTimeout(s, expired);
    var (u, outcome) := match ack
      case None => (t, Handled)
      case Some(a) => HandleAck(t, a.num, Stamp(a));
    if outcome == Handled then
      var (v, sent) := SendWindow(u, file);
      (v, outcome, sent)
    else (u, outcome, [])
  }

  /** One pass over a received datagram; an empty one stands for none. */
  function Pass(file: seq<Byte>, s: AlignedSender, expired: seq<bool>, buf: seq<Byte>): (AlignedSender, Outcome,
          seq<Packet>)
    requires |expired| == SEQ_LEN
  {
    PassAck(file, s, expired, ParseAck(buf))
  }

  /** Once the loop stops it has sent everything. */
  lemma {:induction false} FillEnds(s: AlignedSender, file: seq<Byte>, i: nat)
    requires s.laSeq <= i <= s.laSeq + WINDOW_LEN && Stops(FillTo(s, file, i).0, i)
    ensures SendWindow(s, file) == FillTo(s, file, i)
    decreases s.laSeq + WINDOW_LEN - i
  {
    hide FillSlot;
    if i >= s.laSeq + WINDOW_LEN {
    } else {
      assert FillTo(s, file, i + 1) == FillTo(s, file, i);
      FillEnds(s, file, i + 1);
    }
  }

  lemma {:induction false} ExpiredNext(alarms: seq<Alarm>, laSeq: nat, expired: seq<bool>, i: nat)
    requires |alarms| == |expired| == SEQ_LEN && laSeq < SEQ_LEN && laSeq <= i < laSeq + WINDOW_LEN
    ensures Expired(alarms, laSeq, expired, i - laSeq)[SeqNum(i)] == alarms[SeqNum(i)]
    ensures Expired(alarms, laSeq, expired, i + 1 - laSeq)
         == Expired(alarms, laSeq, expired, i - laSeq)[SeqNum(i) := LateAlarm(alarms[SeqNum(i)], expired[SeqNum(i)])]
  {
  }

  lemma {:induction false} ClearedNext(alarms: seq<Alarm>, laSeq: nat, i: nat)
    requires |alarms| == SEQ_LEN && laSeq < SEQ_LEN && laSeq <= i < laSeq + WINDOW_LEN
    ensures Cleared(alarms, laSeq, i - laSeq)[SeqNum(i)] == alarms[SeqNum(i)]
    ensures Cleared(alarms, laSeq, i + 1 - laSeq)
         == Cleared(alarms, laSeq, i - laSeq)[SeqNum(i) := alarms[SeqNum(i)].(isSet := 0)]
  {
  }

  lemma {:induction false} DroppedNext(queue: seq<Packet>, n: nat)
    ensures Dropped(queue, n + 1) == if Dropped(queue, n) == [] then [] else Dropped(queue, n)[1..]
  {
  }

  /** The datagrams of packets, in order. */
  function Encoded(ps: seq<Packet>): (ds: seq<seq<Byte>>)
    ensures |ds| == |ps|
  {
    seq(|ps|, i requires 0 <= i < |ps| => EncodeData(ps[i]))
  }

  lemma EncodedConcat(x: seq<Packet>, y: seq<Packet>)
    ensures Encoded(x + y) == Encoded(x) + Encoded(y)
  {
    hide EncodeData;
  }

  lemma NothingEncoded()
    ensures Encoded([]) == []
  {
  }

  lemma NothingRead(buf: seq<Byte>)
    requires ACK_LEN <= |buf|
    ensures AckIn(buf, 0) == None
  {
  }

  /** No payload is longer than a packet takes. */
  predicate Short(queue: seq<Packet>) {
    forall p <- queue :: |p.payload| <= BUFLEN
  }

  // ---------------------------------------------------------------- the program

  class FileSender {
    const file: seq<Byte>
    var laSeq: nat
    var lastWindow: int
    var packetId: nat
    var lastAckTime: nat
    const alarmList: array<Alarm>
    const queue: Queue<Packet>
    var filePos: nat
    ghost var State: AlignedSender  // what the fields stand for

    ghost predicate Valid()
      reads this, alarmList, queue, queue.Repr
    {
      && queue.Valid() && alarmList.Length == SEQ_LEN
      && laSeq == State.laSeq && lastWindow == State.lastWindow && packetId == State.packetId
      && lastAckTime == State.lastAckTime && filePos == State.filePos
      && alarmList[..] == State.alarms && queue.Contents == State.queue && Short(State.queue)
    }

    constructor (file: seq<Byte>, lastAckTime: nat)
      ensures Valid() && State == Start(lastAckTime) && this.file == file
      ensures fresh(alarmList) && fresh(queue) && queue.Repr == {}
    {
      this.file := file;
      this.laSeq, this.lastWindow, this.packetId, this.filePos := 0, -1, 0, 0;
      this.lastAckTime := lastAckTime;
      this.alarmList := new Alarm[SEQ_LEN](_ => Alarm(0, 0));
      this.queue := new Queue<Packet>();
      this.State := Start(lastAckTime);
    }

    /** One pass of the main loop over the receive buffer: the datagrams handed to sendto,
        and the packets they carry. */
    method LoopPass(expired: seq<bool>, buf: array<Byte>, recvlen: nat)
      returns (outcome: Outcome, ghost sent: seq<Packet>, wire: seq<seq<Byte>>)
      requires Valid() && |expired| == SEQ_LEN
      requires recvlen <= buf.Length && ACK_LEN <= buf.Length && recvlen < 0x1_0000 && recvlen != 1
      modifies this, alarmList, queue, queue.Repr
      ensures Valid() && fresh(queue.Repr - old(queue.Repr))
      ensures (State, outcome, sent) == PassAck(file, old(State), expired, AckIn(old(buf[..]), recvlen))
      ensures recvlen == 0 || ACK_LEN <= recvlen ==>
                (State, outcome, sent) == Pass(file, old(State), expired, old(buf[..recvlen]))
      ensures wire == Encoded(sent)
    {
      hide CheckTimeout, HandleAck, SendWindow, ParseAck, AckIn, Stamp, Encoded;
      ghost var b := buf[..];
      assert b[..recvlen] == buf[..recvlen];
      if recvlen == 0 || ACK_LEN <= recvlen {
        WholeAckIn(b, recvlen);
      }
      CheckTimeouts(expired);
      outcome, sent, wire := Handled, [], [];
      NothingEncoded();
      var ack: Option<Ack> := None;
      if recvlen > 0 {
        ack := ReadAck(buf, recvlen);
      } else {
        NothingRead(b);
      }
      if ack.Some? {
        outcome := HandleAckNum(ack.value.num, Stamp(ack.value));
      }
      if outcome == Handled {
        sent, wire := SendNewWindow();
      }
    }

    method CheckTimeouts(expired: seq<bool>)
      requires Valid() && |expired| == SEQ_LEN
      modifies alarmList, `State
      ensures Valid() && State == CheckTimeout(old(State), expired)
    {
      ghost var was := alarmList[..];
      for i := laSeq to laSeq + WINDOW_LEN
        invariant State == old(State) && alarmList[..] == Expired(was, laSeq, expired, i - laSeq)
      {
        ExpiredNext(was, laSeq, expired, i);
        var k := SeqNum(i);
        SetAlarm(k, LateAlarm(alarmList[k], expired[k]));
      }
      State := CheckTimeout(State, expired);
    }

    method SetAlarm(k: nat, alarm: Alarm)
      requires k < alarmList.Length
      modifies alarmList
      ensures alarmList[..] == old(alarmList[..])[k := alarm]
    {
      alarmList[k] := alarm;
    }

    method HandleAckNum(num: nat, stamp: nat) returns (outcome: Outcome)
      requires Valid()
      modifies this, alarmList, queue
      ensures Valid() && queue.Repr == old(queue.Repr)
      ensures State == HandleAck(old(State), num, stamp).0
      ensures outcome == HandleAck(old(State), num, stamp).1
    {
      hide Advance, Between, MapToWindow;
      outcome := Handled;
      if stamp > lastAckTime {
        lastAckTime := stamp;
        State := State.(lastAckTime := stamp);
        if num >= SEQ_LEN {
          return Skipped;
        }
        if Between(laSeq, SeqNum(laSeq + WINDOW_LEN - 1), num) {
          if num == lastWindow {
            return Finished;
          }
          InsideWindow(laSeq, num);
          MoveWindow(num);
        }
      }
    }

    method MoveWindow(num: nat)
      requires Valid() && num < SEQ_LEN && MapToWindow(laSeq, num) < WINDOW_LEN
      modifies this, alarmList, queue
      ensures Valid() && queue.Repr == old(queue.Repr)
      ensures State == Advance(old(State), num)
    {
      AcknowledgeUpTo(num);
      laSeq := SeqNum(num + 1);
      State := Advance(State, num);
    }

    /** Clear the alarms up to num and dequeue one packet for each. */
    method AcknowledgeUpTo(num: nat)
      requires queue.Valid() && alarmList.Length == SEQ_LEN && laSeq < SEQ_LEN
      requires num < SEQ_LEN && MapToWindow(laSeq, num) < WINDOW_LEN
      modifies alarmList, queue
      ensures queue.Valid() && queue.Repr == old(queue.Repr)
      ensures alarmList[..] == Cleared(old(alarmList[..]), laSeq, MapToWindow(laSeq, num) + 1)
      ensures queue.Contents == Dropped(old(queue.Contents), MapToWindow(laSeq, num) + 1)
    {
      ghost var alarms, packets, n := alarmList[..], queue.Contents, MapToWindow(laSeq, num) + 1;
      ghost var done := 0;
      for i := laSeq to laSeq + WINDOW_LEN
        invariant queue.Valid() && queue.Repr == old(queue.Repr) && done == Min(i - laSeq, n)
        invariant alarmList[..] == Cleared(alarms, laSeq, done) && queue.Contents == Dropped(packets, done)
      {
        SlotOffset(laSeq, i);
        BelowAck(laSeq, num, SeqNum(i));
        if Between(laSeq, num, Mod(i, SEQ_LEN)) {
          ClearedNext(alarms, laSeq, i);
          DroppedNext(packets, i - laSeq);
          SetAlarm(SeqNum(i), alarmList[SeqNum(i)].(isSet := 0));
          queue.Dequeue();
          done := done + 1;
        }
      }
    }

    /** One pass of the window loop: the datagrams handed to sendto, in order. */
    method SendNewWindow() returns (ghost sent: seq<Packet>, wire: seq<seq<Byte>>)
      requires Valid()
      modifies this, alarmList, queue, queue.Repr
      ensures Valid() && fresh(queue.Repr - old(queue.Repr))
      ensures State == SendWindow(old(State), file).0
      ensures sent == SendWindow(old(State), file).1
      ensures wire == Encoded(sent)
    {
      hide FillSlot, Encoded;
      sent, wire := [], [];
      NothingEncoded();
      var i := laSeq;
      while i < laSeq + WINDOW_LEN
        invariant Valid() && fresh(queue.Repr - old(queue.Repr)) && laSeq == old(laSeq)
        invariant laSeq <= i <= laSeq + WINDOW_LEN
        invariant State == FillTo(old(State), file, i).0 && sent == FillTo(old(State), file, i).1
        invariant wire == Encoded(sent)
      {
        if lastWindow != -1 && i > lastWindow {
          FillEnds(old(State), file, i);
          break;
        }
        ghost var out;
        var bytes;
        out, bytes := Slot(i);
        EncodedConcat(sent, out);
        sent, wire := sent + out, wire + bytes;
        i := i + 1;
      }
    }

    /** One slot: a new packet is read and sent, a timed-out one sent again. */
    method Slot(i: nat) returns (ghost out: seq<Packet>, bytes: seq<seq<Byte>>)
      requires Valid()
      requires laSeq <= i < laSeq + WINDOW_LEN && i - laSeq <= |State.queue|
      modifies this, alarmList, queue, queue.Repr
      ensures Valid() && fresh(queue.Repr - old(queue.Repr))
      ensures State == FillSlot(old(State), file, i).0
      ensures out == FillSlot(old(State), file, i).1 && bytes == Encoded(out)
    {
      hide Encoded;
      NothingEncoded();
      out, bytes := [], [];
      var k := SeqNum(i);
      SlotOffset(laSeq, i);
      if alarmList[k].isSet == 0 || alarmList[k].isSet == 2 {
        var node := queue.GetK(i - laSeq);
        if alarmList[k].isSet != 2 {
          assert node == null;
          var p := ReadSlot(k);
          bytes := Transmit(p);
          out := [p];
        } else {
          SetAlarm(k, alarmList[k].(isSet := 1));
          State := Restart(State, k);
          var p := Outgoing(node.data, alarmList[k].size);
          bytes := Transmit(p);
          out := [p];
        }
      }
    }

    /** The header writes and the checksum, and the bytes handed to sendto. */
    method Transmit(p: Packet) returns (bytes: seq<seq<Byte>>)
      requires |p.payload| <= BUFLEN
      ensures bytes == Encoded([p])
    {
      var buf := BuildData(p.seqNum, p.kind, p.id, p.payload);
      bytes := [buf[..]];
    }

    /** A free slot takes the next packet of the file. */
    method ReadSlot(k: nat) returns (p: Packet)
      requires Valid()
      requires k < SEQ_LEN && MapToWindow(laSeq, k) == |State.queue| < WINDOW_LEN
      modifies this, alarmList, queue, queue.Repr
      ensures Valid() && fresh(queue.Repr - old(queue.Repr))
      ensures p == NextPacket(file, old(filePos), old(packetId), k)
      ensures State == Append(old(State), p, k)
    {
      p := ReadPacket(k);
      queue.EnqueueNew(p);
      SetAlarm(k, Alarm(1, |p.payload|));
      if |p.payload| < BUFLEN {
        lastWindow := k;
      }
      State := Append(State, p, k);
    }

    /** fread and the header fields of the next packet. */
    method ReadPacket(k: nat) returns (p: Packet)
      modifies `packetId, `filePos
      ensures p == NextPacket(file, old(filePos), old(packetId), k)
      ensures packetId == p.id && filePos == old(filePos) + |p.payload|
    {
      packetId := U32(packetId + 1);
      var data := Read(file, filePos, BUFLEN);
      filePos := filePos + |data|;
      p := Packet(k, Kind(data), packetId, data);
    }
  }
}
