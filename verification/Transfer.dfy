/** Sender, receiver and an unreliable network together: the file transfer of
    project2/sendfile.c and project2/recvfile.c as a transition system. Datagrams in
    flight are never forgotten and may be delivered any number of times in any order,
    or never; a delivered buffer may also be any bytes that fail the checksum. */
module Transfer {
  import opened Bits
  import opened Window
  import opened Wire
  import opened Stamps
  import opened Segments
  import opened SendFile
  import opened SenderIndices
  import opened ReceiverIndices
  import opened Words
  import R = RecvFile

  /** An acknowledgement in flight, with the receiver's position and clock when it was made. */
  datatype SentAck = SentAck(datagram: seq<Byte>, pos: nat, clock: nat)

  datatype SenderPhase = Greeting | Sending | Closed

  /** In the end the receiver repeats its last acknowledgement a number of times. */
  datatype ReceiverPhase = Waiting | Receiving | Leaving(farewells: nat)

  datatype System = System(
    sp: SenderPhase, s: AlignedSender,
    rp: ReceiverPhase, r: R.OrderedReceiver, clock: nat,
    data: set<seq<Byte>>, acks: set<SentAck>)

  /** What is sent: a file under a name. */
  datatype Job = Job(file: seq<Byte>, name: seq<Byte>)

  datatype Event =
    | Greet
    | Admit(buf: seq<Byte>, now: nat)
    | Greeted(buf: seq<Byte>)
    | SenderPass(expired: seq<bool>, ack: seq<Byte>)
    | ReceiverPass(buf: seq<Byte>, now: nat)
    | Farewell(now: nat)

  // ---------------------------------------------------------------- the two programs as steps

  /** The packet with the file name: id 0, so it is never taken for data. */
  function NamePacket(job: Job): Packet {
    Packet(SEQ_LEN - 1, 2, 0, job.name)
  }

  lemma NameIsIntact(job: Job)
    ensures Intact(EncodeData(NamePacket(job)))
  {
    SealedIntact(DataBody(NamePacket(job)));
  }

  function Acknowledge(r: R.Receiver, now: nat): SentAck {
    SentAck(EncodeAck(MakeAck(r.laSeq, now)), r.lastId, now)
  }

  /** What a pass puts in flight: the datagrams it hands to sendto. */
  function Datagrams(sent: seq<Packet>): (ds: set<seq<Byte>>)
    ensures forall d :: d in ds <==> exists p <- sent :: d == EncodeData(p)
  {
    assert forall p <- sent :: exists i :: 0 <= i < |sent| && sent[i] == p && Encoded(sent)[i] == EncodeData(p);
    set d | d in Encoded(sent)
  }

  // ---------------------------------------------------------------- transitions

  ghost predicate Init(y: System) {
    && y.sp == Greeting && y.s == Start(0) && y.rp == Waiting && y.r == R.Start()
    && y.data == {} && y.acks == {}
  }

  predicate Deliverable(flight: set<seq<Byte>>, buf: seq<Byte>) {
    buf in flight || !Intact(buf)
  }

  function AckDatagrams(acks: set<SentAck>): set<seq<Byte>> {
    set a | a in acks :: a.datagram
  }

  /** The receiver's clock never runs backwards; its 32-bit stamps do not wrap during
      the transfer. */
  predicate Later(clock: nat, now: nat) {
    clock <= now && Epoch(clock) == Epoch(now)
  }

  predicate Enabled(y: System, e: Event) {
    match e
    case Greet => y.sp == Greeting
    case Admit(buf, now) => y.rp == Waiting && Deliverable(y.data, buf) && Later(y.clock, now)
    case Greeted(buf) => y.sp == Greeting && Deliverable(AckDatagrams(y.acks), buf)
    case SenderPass(expired, ack) =>
      y.sp == Sending && |expired| == SEQ_LEN && Deliverable(AckDatagrams(y.acks), ack)
    case ReceiverPass(buf, now) => y.rp == Receiving && Deliverable(y.data, buf) && Later(y.clock, now)
    case Farewell(now) => y.rp.Leaving? && y.rp.farewells > 0 && Later(y.clock, now)
  }

  function Next(job: Job, y: System, e: Event): System
    requires Enabled(y, e)
  {
    match e
    case Greet => y.(data := y.data + {EncodeData(NamePacket(job))})
    case Admit(buf, now) =>
      if !Intact(buf) then y.(clock := now)
      else y.(rp := Receiving, clock := now, acks := y.acks + {Acknowledge(y.r, now)})
    case Greeted(buf) =>
      (match ParseAck(buf)
       case None => y
       case Some(a) =>
         if Stamp(a) > y.s.lastAckTime && a.kind == 1 && a.num == SEQ_LEN - 1
         then y.(sp := Sending, s := y.s.(lastAckTime := Stamp(a)))
         else y)
    case SenderPass(expired, ack) =>
      var (t, outcome, sent) := Pass(job.file, y.s, expired, ack);
      y.(sp := if outcome == Finished then Closed else Sending, s := t, data := y.data + Datagrams(sent))
    case ReceiverPass(buf, now) =>
      var q := R.Handle(y.r, buf);
      y.(rp := if q.readyExit == 2 then Leaving(400) else Receiving, r := q, clock := now,
         acks := y.acks + {Acknowledge(q, now)})
    case Farewell(now) =>
      y.(rp := Leaving(y.rp.farewells - 1), clock := now, acks := y.acks + {Acknowledge(y.r, now)})
  }

  /** A run: each state follows from the one before by an enabled event. */
  ghost predicate Run(job: Job, states: seq<System>, events: seq<Event>) {
    && |states| == |events| + 1 && Init(states[0])
    && forall i :: 0 <= i < |events| ==>
         Enabled(states[i], events[i]) && states[i + 1] == Next(job, states[i], events[i])
  }

  // ---------------------------------------------------------------- the invariant

  /** What the acknowledgements in flight say: each names a position the receiver had
      when its clock showed the stamp, and a newer stamp than the last accepted one
      names a position at or above the sender's base. */
  ghost predicate AcksInv(acks: set<SentAck>, base: int, lastAckTime: nat, pos: nat, clock: nat) {
    && (forall a <- acks ::
          && a.datagram == EncodeAck(MakeAck(SeqNum(a.pos), a.clock))
          && a.pos <= pos && Later(a.clock, clock)
          && (U32(a.clock) > lastAckTime ==> base <= a.pos))
    && (forall a <- acks, b <- acks :: a.clock < b.clock ==> a.pos <= b.pos)
  }

  ghost predicate DataInv(job: Job, n: nat, data: set<seq<Byte>>) {
    forall d <- data :: d == EncodeData(NamePacket(job)) || exists p :: FromFile(job.file, n, p) && d == EncodeData(p)
  }

  ghost predicate PhasesInv(job: Job, y: System) {
    && (y.sp == Greeting ==> y.s == Start(0))
    && (y.sp != Greeting ==> y.rp != Waiting)
    && (y.rp == Waiting ==> y.r == R.Start() && y.acks == {})
    && (y.rp.Receiving? ==> y.r.readyExit != 2)
    && (y.rp.Leaving? ==> y.r.readyExit == 2)
    && (y.sp == Closed ==> y.r.lastId == Total(job.file))
  }

  ghost predicate Inv(job: Job, y: System) {
    && Sized(job.file) && Indexed(job.file, y.s) && Reassembling(job.file, y.s.packetId, y.r)
    && Base(y.s) <= y.r.lastId
    && AcksInv(y.acks, Base(y.s), y.s.lastAckTime, y.r.lastId, y.clock)
    && DataInv(job, y.s.packetId, y.data)
    && PhasesInv(job, y)
  }

  // ---------------------------------------------------------------- what can be delivered

  /** A delivered acknowledgement is unreadable, or one the receiver made. */
  lemma DeliveredAck(acks: set<SentAck>, buf: seq<Byte>, base: int, last: nat, pos: nat, clock: nat)
    returns (a: Option<SentAck>)
    requires Deliverable(AckDatagrams(acks), buf) && AcksInv(acks, base, last, pos, clock)
    ensures a.None? ==> ParseAck(buf) == None
    ensures a.Some? ==>
              && a.value in acks && a.value.datagram == buf
              && ParseAck(buf) == Some(MakeAck(SeqNum(a.value.pos), a.value.clock))
  {
    hide MakeAck, EncodeAck;
    if buf in AckDatagrams(acks) {
      var b :| b in acks && b.datagram == buf;
      AckSurvives(SeqNum(b.pos), b.clock);
      a := Some(b);
    } else {
      a := None;
    }
  }

  /** A delivered datagram is unreadable, the file name, or a packet of the file. */
  lemma DeliveredData(job: Job, n: nat, data: set<seq<Byte>>, buf: seq<Byte>) returns (p: Option<Packet>)
    requires Deliverable(data, buf) && DataInv(job, n, data) && n <= Total(job.file) && Sized(job.file)
    ensures ParseData(buf) == p
    ensures p.Some? ==> p.value == NamePacket(job) || FromFile(job.file, n, p.value)
  {
    hide EncodeData, Total;
    if buf in data {
      if buf == EncodeData(NamePacket(job)) {
        DataRoundTrip(NamePacket(job));
        p := Some(NamePacket(job));
      } else {
        var q :| FromFile(job.file, n, q) && buf == EncodeData(q);
        DataRoundTrip(q);
        p := Some(q);
      }
    } else {
      p := None;
    }
  }

  // ---------------------------------------------------------------- the sender's pass

  /** After an accepted acknowledgement all newer ones name positions at or above its own. */
  lemma AcksAfter(acks: set<SentAck>, a: SentAck, base: int, last: nat, pos: nat, clock: nat)
    requires AcksInv(acks, base, last, pos, clock) && a in acks && U32(a.clock) > last
    ensures AcksInv(acks, a.pos, U32(a.clock), pos, clock) && base <= a.pos <= pos
  {
    hide MakeAck, EncodeAck, Epoch;
    forall b | b in acks && U32(b.clock) > U32(a.clock)
      ensures a.pos <= b.pos
    {
      SameEpoch(a.clock, b.clock);
    }
  }

  lemma NumberIsAckNum(pos: nat, clock: nat)
    ensures MakeAck(SeqNum(pos), clock).num == AckNum(pos)
  {
  }

  /** Acknowledgements are never misread: whatever acknowledgement gets through, the
      base stays, or moves to exactly the position the receiver had when it was made;
      the transfer ends only if that position is the whole file. */
  lemma AckStep(job: Job, s: AlignedSender, buf: seq<Byte>, acks: set<SentAck>, pos: nat, clock: nat)
    requires Indexed(job.file, s) && Base(s) <= pos <= s.packetId
    requires AcksInv(acks, Base(s), s.lastAckTime, pos, clock) && Deliverable(AckDatagrams(acks), buf)
    requires ParseAck(buf).Some?
    ensures var a := ParseAck(buf).value;
            var (t, outcome) := HandleAck(s, a.num, Stamp(a));
      && Indexed(job.file, t) && t.packetId == s.packetId && Base(s) <= Base(t) <= pos
      && AcksInv(acks, Base(t), t.lastAckTime, pos, clock)
      && outcome != Skipped && (outcome == Finished ==> pos == Total(job.file))
      && (t != s && outcome == Handled ==>
            exists c <- acks :: c.datagram == buf && Base(t) == c.pos && t.lastAckTime == U32(c.clock))
  {
    hide EncodeAck, Stamp, ParseAck, AckNum, Total, Indexed, Deliverable, Advance;
    var c := DeliveredAck(acks, buf, Base(s), s.lastAckTime, pos, clock);
    StampIsClock(SeqNum(c.value.pos), c.value.clock);
    NumberIsAckNum(c.value.pos, c.value.clock);
    if U32(c.value.clock) > s.lastAckTime {
      AcksAfter(acks, c.value, Base(s), s.lastAckTime, pos, clock);
      AckMovesBase(job.file, s, c.value.pos, U32(c.value.clock));
      IndexedBound(job.file, s);
    }
  }

  lemma IndexedBound(file: seq<Byte>, s: Sender)
    requires Indexed(file, s)
    ensures s.packetId <= Total(file)
  {
  }

  lemma TimeoutsKeepAlignment(s: AlignedSender, expired: seq<bool>)
    requires |expired| == SEQ_LEN
    ensures var t := CheckTimeout(s, expired);
      t.packetId == s.packetId && t.lastAckTime == s.lastAckTime && Base(t) == Base(s)
  {
  }

  lemma SendStep(job: Job, s: AlignedSender)
    requires Indexed(job.file, s) && Sized(job.file)
    ensures var (t, sent) := SendWindow(s, job.file);
      && Indexed(job.file, t) && Base(t) == Base(s) && t.packetId >= s.packetId && t.lastAckTime == s.lastAckTime
      && t.packetId <= Base(t) + WINDOW_LEN
      && forall p <- sent :: FromFile(job.file, t.packetId, p)
  {
    hide Indexed, FromFile, Sized, FillTo;
    SentArePackets(job.file, s, s.laSeq + WINDOW_LEN);
    QueueBound(SendWindow(s, job.file).0);
  }

  lemma QueueBound(s: AlignedSender)
    ensures s.packetId <= Base(s) + WINDOW_LEN
  {
  }

  /** One pass of the sender against acknowledgements made at positions up to pos. */
  lemma PassKeeps(job: Job, s: AlignedSender, expired: seq<bool>, ack: seq<Byte>,
                  acks: set<SentAck>, pos: nat, clock: nat)
    requires |expired| == SEQ_LEN && Indexed(job.file, s) && Sized(job.file) && Base(s) <= pos <= s.packetId
    requires AcksInv(acks, Base(s), s.lastAckTime, pos, clock) && Deliverable(AckDatagrams(acks), ack)
    ensures var (t, outcome, sent) := Pass(job.file, s, expired, ack);
      && Indexed(job.file, t) && Base(s) <= Base(t) <= pos
      && s.packetId <= t.packetId <= pos + WINDOW_LEN
      && AcksInv(acks, Base(t), t.lastAckTime, pos, clock)
      && (outcome == Finished ==> pos == Total(job.file))
      && forall p <- sent :: FromFile(job.file, t.packetId, p)
  {
    hide Indexed, AcksInv, Deliverable, Sized, FromFile, CheckTimeout, SendWindow, HandleAck, Stamp, ParseAck;
    TimeoutsIndexed(job.file, s, expired);
    TimeoutsKeepAlignment(s, expired);
    var t := CheckTimeout(s, expired);
    var u := t;
    var outcome := Handled;
    if ParseAck(ack).Some? {
      AckStep(job, t, ack, acks, pos, clock);
      u := HandleAck(t, ParseAck(ack).value.num, Stamp(ParseAck(ack).value)).0;
    }
    SendStep(job, u);
  }

  // ---------------------------------------------------------------- the receiver's pass

  lemma HandleKeeps(job: Job, n: nat, r: R.OrderedReceiver, data: set<seq<Byte>>, buf: seq<Byte>)
    requires Reassembling(job.file, n, r) && r.readyExit != 2 && Sized(job.file)
    requires Deliverable(data, buf) && DataInv(job, n, data)
    ensures Reassembling(job.file, n, R.Handle(r, buf)) && R.Handle(r, buf).lastId >= r.lastId
  {
    var p := DeliveredData(job, n, data, buf);
    if p.Some? {
      if p.value == NamePacket(job) {
        OldIsRejected(r, p.value);
      } else {
        var j: nat :| j < n && p.value == PacketOf(job.file, j);
        ReceiveKeeps(job.file, n, r, j);
        assert p.value.seqNum < SEQ_LEN;
      }
    }
    hide Reassembling, Payload, ParseData, R.Receive, NamePacket, DataInv, Deliverable;
  }

  /** A fresh acknowledgement is the newest and names the furthest position. */
  lemma AcksGrow(acks: set<SentAck>, base: int, last: nat, pos: nat, clock: nat, r: R.OrderedReceiver, now: nat)
    requires AcksInv(acks, base, last, pos, clock) && Later(clock, now)
    requires base <= pos <= r.lastId && r.laSeq == SeqNum(r.lastId)
    ensures AcksInv(acks + {Acknowledge(r, now)}, base, last, r.lastId, now)
  {
    hide MakeAck, EncodeAck, Epoch;
  }

  lemma AcksWait(acks: set<SentAck>, base: int, last: nat, pos: nat, clock: nat, now: nat)
    requires AcksInv(acks, base, last, pos, clock) && Later(clock, now)
    ensures AcksInv(acks, base, last, pos, now)
  {
  }

  lemma DataGrows(job: Job, n: nat, m: nat, data: set<seq<Byte>>, sent: seq<Packet>)
    requires DataInv(job, n, data) && n <= m && forall p <- sent :: FromFile(job.file, m, p)
    ensures DataInv(job, m, data + Datagrams(sent))
  {
  }

  // ---------------------------------------------------------------- every step keeps the invariant

  lemma InitInv(job: Job, y: System)
    requires Init(y) && Sized(job.file)
    ensures Inv(job, y)
  {
  }

  lemma GreetKeeps(job: Job, y: System)
    requires Inv(job, y) && Enabled(y, Greet)
    ensures Inv(job, Next(job, y, Greet))
  {
    hide Indexed, Reassembling, AcksInv, NamePacket, EncodeData, Total;
  }

  lemma AdmitKeeps(job: Job, y: System, buf: seq<Byte>, now: nat)
    requires Inv(job, y) && Enabled(y, Admit(buf, now))
    ensures Inv(job, Next(job, y, Admit(buf, now)))
  {
    AcksGrow(y.acks, Base(y.s), y.s.lastAckTime, y.r.lastId, y.clock, y.r, now);
    AcksWait(y.acks, Base(y.s), y.s.lastAckTime, y.r.lastId, y.clock, now);
    hide Indexed, Reassembling, AcksInv, DataInv, Intact, Sized, Total, Acknowledge, Later;
  }

  lemma GreetedKeeps(job: Job, y: System, buf: seq<Byte>)
    requires Inv(job, y) && Enabled(y, Greeted(buf))
    ensures Inv(job, Next(job, y, Greeted(buf)))
  {
    hide Reassembling, DataInv, Sized, AcksInv, MakeAck, EncodeAck, Stamp, ParseAck, Indexed, Aligned, U32;
    var a := DeliveredAck(y.acks, buf, Base(y.s), y.s.lastAckTime, y.r.lastId, y.clock);
    if ParseAck(buf).Some? {
      LaterStart(job.file, y.s, y.acks, Stamp(ParseAck(buf).value), y.r.lastId, y.clock);
    }
    hide AckDatagrams, Deliverable;
  }

  lemma LaterStart(file: seq<Byte>, s: AlignedSender, acks: set<SentAck>, stamp: nat, pos: nat, clock: nat)
    requires s == Start(0) && Indexed(file, s) && AcksInv(acks, 0, s.lastAckTime, pos, clock)
    ensures var t := s.(lastAckTime := stamp);
      Aligned(t) && Indexed(file, t) && Base(t) == 0 && AcksInv(acks, 0, stamp, pos, clock)
  {
  }

  lemma SenderPassKeeps(job: Job, y: System, expired: seq<bool>, ack: seq<Byte>)
    requires Inv(job, y) && Enabled(y, SenderPass(expired, ack))
    ensures Inv(job, Next(job, y, SenderPass(expired, ack)))
  {
    PassKeeps(job, y.s, expired, ack, y.acks, y.r.lastId, y.clock);
    var (t, outcome, sent) := Pass(job.file, y.s, expired, ack);
    assert t.packetId <= Total(job.file);
    MoreSent(job.file, y.s.packetId, t.packetId, y.r);
    DataGrows(job, y.s.packetId, t.packetId, y.data, sent);
    hide Reassembling, DataInv, Sized, Indexed, AcksInv, Pass, Total, Deliverable;
  }

  lemma ReceiverPassKeeps(job: Job, y: System, buf: seq<Byte>, now: nat)
    requires Inv(job, y) && Enabled(y, ReceiverPass(buf, now))
    ensures Inv(job, Next(job, y, ReceiverPass(buf, now)))
  {
    HandleKeeps(job, y.s.packetId, y.r, y.data, buf);
    var q := R.Handle(y.r, buf);
    AcksGrow(y.acks, Base(y.s), y.s.lastAckTime, y.r.lastId, y.clock, q, now);
    assert q.lastId <= Total(job.file);
    hide Reassembling, DataInv, Sized, Indexed, AcksInv, R.Handle, Total, Deliverable, Acknowledge, Later;
  }

  lemma FarewellKeeps(job: Job, y: System, now: nat)
    requires Inv(job, y) && Enabled(y, Farewell(now))
    ensures Inv(job, Next(job, y, Farewell(now)))
  {
    AcksGrow(y.acks, Base(y.s), y.s.lastAckTime, y.r.lastId, y.clock, y.r, now);
    hide Reassembling, DataInv, Sized, Indexed, AcksInv, Total, Acknowledge, Later;
  }

  lemma NextKeeps(job: Job, y: System, e: Event)
    requires Inv(job, y) && Enabled(y, e)
    ensures Inv(job, Next(job, y, e))
  {
    hide Inv, Next;
    match e
    case Greet => GreetKeeps(job, y);
    case Admit(buf, now) => AdmitKeeps(job, y, buf, now);
    case Greeted(buf) => GreetedKeeps(job, y, buf);
    case SenderPass(expired, ack) => SenderPassKeeps(job, y, expired, ack);
    case ReceiverPass(buf, now) => ReceiverPassKeeps(job, y, buf, now);
    case Farewell(now) => FarewellKeeps(job, y, now);
  }

  lemma {:induction false} RunKeeps(job: Job, states: seq<System>, events: seq<Event>, i: nat)
    requires Run(job, states, events) && Sized(job.file) && i < |states|
    ensures Inv(job, states[i])
  {
    hide Inv, Next, Enabled, Init;
    if i == 0 {
      InitInv(job, states[0]);
    } else {
      RunKeeps(job, states, events, i - 1);
      NextKeeps(job, states[i - 1], events[i - 1]);
    }
  }
}
