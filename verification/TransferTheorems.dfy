/** What every run of the file transfer guarantees. */
module TransferTheorems {
  import opened Bits
  import opened Window
  import opened Wire
  import opened Stamps
  import opened Segments
  import opened SendFile
  import opened SenderEffects
  import opened SenderIndices
  import opened ReceiverIndices
  import opened Transfer
  import opened Words
  import R = RecvFile

  // ---------------------------------------------------------------- safety

  /** At every moment of every run the written bytes are a prefix of the file, namely
      its first lastId packets, and the receiver is never behind the sender's base nor
      ahead of what was read. */
  lemma WrittenIsPrefix(job: Job, states: seq<System>, events: seq<Event>, i: nat)
    requires Run(job, states, events) && Sized(job.file) && i < |states|
    ensures states[i].r.written == Prefix(job.file, states[i].r.lastId)
    ensures states[i].r.written <= job.file
    ensures 0 <= Base(states[i].s) <= states[i].r.lastId <= states[i].s.packetId
    ensures states[i].s.packetId <= Base(states[i].s) + WINDOW_LEN && states[i].s.packetId <= Total(job.file)
  {
    RunKeeps(job, states, events, i);
    QueueBound(states[i].s);
    hide Run, AcksInv, DataInv;
  }

  /** Completion is truthful at both ends: the sender leaves its loop, and the receiver
      leaves its loop, only when the whole file is written. */
  lemma CompletionIsTruthful(job: Job, states: seq<System>, events: seq<Event>, i: nat)
    requires Run(job, states, events) && Sized(job.file) && i < |states|
    ensures states[i].sp == Closed || states[i].rp.Leaving? ==> states[i].r.written == job.file
  {
    RunKeeps(job, states, events, i);
    PayloadsAreFile(job.file);
    hide Run, AcksInv, DataInv;
  }

  /** Whatever acknowledgement a pass of the sender reads, old, repeated or corrupt: if
      the base moves at all, it moves to the position the receiver had when it made
      exactly this acknowledgement. */
  lemma AcksAreNeverMisread(job: Job, states: seq<System>, events: seq<Event>, i: nat)
    requires Run(job, states, events) && Sized(job.file) && i < |events| && events[i].SenderPass?
    requires Base(states[i + 1].s) != Base(states[i].s)
    ensures exists c <- states[i].acks ::
              c.datagram == events[i].ack && Base(states[i + 1].s) == c.pos <= states[i].r.lastId
  {
    RunKeeps(job, states, events, i);
    var y := states[i];
    BaseMovesByAck(job, y, events[i].expired, events[i].ack);
    hide Inv, Pass, AcksInv;
  }

  lemma BaseMovesByAck(job: Job, y: System, expired: seq<bool>, ack: seq<Byte>)
    requires Inv(job, y) && Enabled(y, SenderPass(expired, ack))
    requires Base(Pass(job.file, y.s, expired, ack).0) != Base(y.s)
    ensures exists c <- y.acks :: c.datagram == ack && Base(Pass(job.file, y.s, expired, ack).0) == c.pos <= y.r.lastId
  {
    hide Indexed, AcksInv, Deliverable, Sized, CheckTimeout, SendWindow, HandleAck, Stamp, ParseAck, Reassembling,
      DataInv;
    var t := CheckTimeout(y.s, expired);
    TimeoutsIndexed(job.file, y.s, expired);
    TimeoutsKeepAlignment(y.s, expired);
    InvBounds(job, y);
    if ParseAck(ack).Some? {
      AckStep(job, t, ack, y.acks, y.r.lastId, y.clock);
      var a := ParseAck(ack).value;
      var u := HandleAck(t, a.num, Stamp(a)).0;
      if HandleAck(t, a.num, Stamp(a)).1 == Finished {
        FinishKeepsBase(t, a.num, Stamp(a));
      }
      SendStep(job, u);
    } else {
      SendStep(job, t);
    }
  }

  /** In every run a pass that does not end the transfer sends exactly what its window wants:
      the packets that are new, timed out before or over time now, in order. */
  lemma PassesSendExactly(job: Job, states: seq<System>, events: seq<Event>, i: nat)
    requires Run(job, states, events) && Sized(job.file) && i < |events| && events[i].SenderPass?
    ensures var y, z := states[i], states[i + 1];
      |events[i].expired| == 16 &&
      if z.sp == Closed then z.data == y.data
      else exists sent: seq<Packet> ::
        z.data == y.data + Datagrams(sent) && Passed(job.file, y.s, events[i].expired, Base(z.s), z.s, sent)
  {
    hide Inv, Pass, Passed, Run, Deliverable, Datagrams;
    StepOf(job, states, events, i);
    RunKeeps(job, states, events, i);
    var y, e := states[i], events[i];
    PassSends(job, y, e.expired, e.ack);
    var (t, outcome, sent) := Pass(job.file, y.s, e.expired, e.ack);
    if outcome == Finished {
      NothingSent(y.data);
    }
  }

  lemma StepOf(job: Job, states: seq<System>, events: seq<Event>, i: nat)
    requires Run(job, states, events) && i < |events|
    ensures |states| == |events| + 1 && Enabled(states[i], events[i])
    ensures states[i + 1] == Next(job, states[i], events[i])
  {
    hide Init, Enabled, Next;
  }

  lemma NothingSent(data: set<seq<Byte>>)
    ensures data + Datagrams([]) == data
  {
    hide EncodeData;
  }

  lemma PassSends(job: Job, y: System, expired: seq<bool>, ack: seq<Byte>)
    requires Inv(job, y) && Enabled(y, Event.SenderPass(expired, ack))
    ensures var (t, outcome, sent) := Pass(job.file, y.s, expired, ack);
      if outcome == Finished then sent == [] else Passed(job.file, y.s, expired, Base(t), t, sent)
  {
    hide Indexed, Deliverable, Sized, Stamp, ParseAck, Reassembling, DataInv, PassAck, Total, EncodeAck, MakeAck;
    InvBounds(job, y);
    var c := DeliveredAck(y.acks, ack, Base(y.s), y.s.lastAckTime, y.r.lastId, y.clock);
    var pos: nat := 0;
    if c.Some? {
      pos := c.value.pos;
      StampIsClock(SeqNum(pos), c.value.clock);
      NumberIsAckNum(pos, c.value.clock);
      AckNumIs(pos);
    }
    PassExactly(job.file, y.s, expired, ParseAck(ack), pos);
    PassedBase(job.file, y.s, expired, NewBase(y.s, ParseAck(ack), pos), Pass(job.file, y.s, expired, ack).0,
               Pass(job.file, y.s, expired, ack).2);
  }

  lemma PassedBase(file: seq<Byte>, s: AlignedSender, expired: seq<bool>, b: int, t: AlignedSender, sent: seq<Packet>)
    requires |expired| == 16
    ensures Passed(file, s, expired, b, t, sent) ==> b == Base(t)
  {
    hide Indexed;
  }

  lemma FinishKeepsBase(s: AlignedSender, num: nat, stamp: nat)
    requires HandleAck(s, num, stamp).1 == Finished
    ensures Base(HandleAck(s, num, stamp).0) == Base(s)
  {
  }

  lemma InvBounds(job: Job, y: System)
    requires Inv(job, y)
    ensures Base(y.s) <= y.r.lastId <= y.s.packetId
  {
  }

  /** What a readable datagram is to a receiver: rejected without effect, or a packet of
      the file inside the receive window that is ignored exactly if it is already stored. */
  ghost predicate Classified(job: Job, r: R.OrderedReceiver, p: Packet) {
    p.seqNum < SEQ_LEN &&
    if p.id <= r.lastId then R.Receive(r, p) == r
    else
      && p == PacketOf(job.file, p.id - 1) && p.id - 1 < r.lastId + WINDOW_LEN
      && (R.Accepted(r, p.seqNum) <==> !Holds(r, p.id - 1))
  }

  /** In every run a delivered packet that passes the id test is a packet of the file
      inside the receive window; it is ignored only if it is already stored. Everything
      else, late copies of the file name included, is rejected by the id test. */
  lemma IgnoredAreDuplicates(job: Job, states: seq<System>, events: seq<Event>, i: nat)
    requires Run(job, states, events) && Sized(job.file) && i < |events|
    requires events[i].ReceiverPass? && ParseData(events[i].buf).Some?
    ensures Classified(job, states[i].r, ParseData(events[i].buf).value)
  {
    hide Inv, Classified, ParseData, Next, Deliverable, Later;
    RunKeeps(job, states, events, i);
    DeliveredIsClassified(job, states[i], events[i].buf);
  }

  lemma DeliveredIsClassified(job: Job, y: System, buf: seq<Byte>)
    requires Inv(job, y) && Deliverable(y.data, buf) && ParseData(buf).Some?
    ensures Classified(job, y.r, ParseData(buf).value)
  {
    hide AcksInv, DataInv, Indexed, Payload, R.Receive, ParseData, EncodeData, R.Accepted, Deliverable, SeqNum, Total;
    var n := y.s.packetId;
    var p := DeliveredData(job, n, y.data, buf);
    if p.value == NamePacket(job) {
      OldIsRejected(y.r, p.value);
    } else {
      var j: nat :| j < n && p.value == PacketOf(job.file, j);
      FreshIsInWindow(job.file, n, y.r, j);
      if p.value.id <= y.r.lastId {
        OldIsRejected(y.r, p.value);
      }
    }
  }

  /** Every retransmission is byte for byte the first transmission: in every run, data
      datagrams that were sent with the same id are equal. */
  lemma RetransmissionsAreIdentical(job: Job, states: seq<System>, events: seq<Event>, i: nat, d: seq<Byte>,
          e: seq<Byte>)
    requires Run(job, states, events) && Sized(job.file) && i < |states| && d in states[i].data && e in states[i].data
    requires ParseData(d).Some? && ParseData(e).Some? && ParseData(d).value.id == ParseData(e).value.id
    ensures d == e
  {
    hide *;
    SameIdSameBytes(job, states[i], d, e) by {
      RunHasState(job, states, events, i);
    }
  }

  lemma RunHasState(job: Job, states: seq<System>, events: seq<Event>, i: nat)
    requires Run(job, states, events) && Sized(job.file) && i < |states|
    ensures Inv(job, states[i])
  {
    hide Inv, Run;
    RunKeeps(job, states, events, i);
  }

  lemma SameIdSameBytes(job: Job, y: System, d: seq<Byte>, e: seq<Byte>)
    requires Inv(job, y) && d in y.data && e in y.data
    requires ParseData(d).Some? && ParseData(e).Some? && ParseData(d).value.id == ParseData(e).value.id
    ensures d == e
  {
    hide *;
    InvData(job, y);
    OneDatagramPerId(job, y.s.packetId, y.data, d);
    OneDatagramPerId(job, y.s.packetId, y.data, e);
  }

  lemma InvData(job: Job, y: System)
    requires Inv(job, y)
    ensures DataInv(job, y.s.packetId, y.data) && y.s.packetId <= Total(job.file) && Sized(job.file)
    ensures Reassembling(job.file, y.s.packetId, y.r) && y.r.lastId <= Total(job.file)
    ensures y.rp.Receiving? ==> y.r.readyExit != 2
  {
  }

  lemma OneDatagramPerId(job: Job, n: nat, data: set<seq<Byte>>, d: seq<Byte>)
    requires DataInv(job, n, data) && d in data && n <= Total(job.file) && Sized(job.file)
    ensures ParseData(d).Some?
    ensures d == if ParseData(d).value.id == 0 then EncodeData(NamePacket(job))
                 else EncodeData(PacketOf(job.file, ParseData(d).value.id - 1))
  {
    hide EncodeData, ParseData, PacketOf, FromFile, Total;
    if d == EncodeData(NamePacket(job)) {
      DataRoundTrip(NamePacket(job));
    } else {
      var p :| FromFile(job.file, n, p) && d == EncodeData(p);
      FilePacket(job.file, n, p);
      DataRoundTrip(p);
    }
  }

  lemma FilePacket(file: seq<Byte>, n: nat, p: Packet)
    requires FromFile(file, n, p) && n <= Total(file) && Sized(file)
    ensures p.id > 0 && p == PacketOf(file, p.id - 1) && PacketFits(p)
  {
    hide Payload;
  }

  // ---------------------------------------------------------------- leaving the receiver's loop

  lemma HandleExit(job: Job, n: nat, r: R.OrderedReceiver, data: set<seq<Byte>>, buf: seq<Byte>)
    requires Reassembling(job.file, n, r) && r.readyExit != 2 && Sized(job.file)
    requires Deliverable(data, buf) && DataInv(job, n, data)
    ensures r.lastId < Total(job.file) == R.Handle(r, buf).lastId ==>
              (R.Handle(r, buf).readyExit == 2 <==> SeqNum(r.lastId) <= SeqNum(Total(job.file) - 1))
    ensures r.lastId == Total(job.file) ==> R.Handle(r, buf) == r
  {
    hide Indexed, Payload, R.Receive, ParseData, EncodeData, Deliverable, DataInv, SeqNum;
    var p := DeliveredData(job, n, data, buf);
    if p.Some? && p.value == NamePacket(job) {
      OldIsRejected(r, p.value);
    } else if p.Some? {
      var j: nat :| j < n && p.value == PacketOf(job.file, j);
      if r.lastId == Total(job.file) {
        MissedExitIsFinal(job.file, n, r, j);
      } else if R.Receive(r, p.value).lastId == Total(job.file) {
        ExitExactly(job.file, n, r, j);
      }
    }
  }

  lemma CompletingPass(job: Job, y: System, buf: seq<Byte>, now: nat)
    requires Inv(job, y) && Enabled(y, ReceiverPass(buf, now)) && y.r.lastId < Total(job.file)
    requires Next(job, y, ReceiverPass(buf, now)).r.lastId == Total(job.file)
    ensures Next(job, y, ReceiverPass(buf, now)).rp.Leaving? <==> SeqNum(y.r.lastId) <= SeqNum(Total(job.file) - 1)
  {
    InvData(job, y);
    hide Inv, DataInv, Deliverable, R.Handle, Acknowledge, Total, SeqNum, Later, Reassembling;
    HandleExit(job, y.s.packetId, y.r, y.data, buf);
  }

  /** In every run, the pass that completes the file leaves the loop exactly if it starts
      at a sequence number not above the last one, that is, if the batch it writes does
      not cross the wrap. */
  lemma LeavesExactly(job: Job, states: seq<System>, events: seq<Event>, i: nat)
    requires Run(job, states, events) && Sized(job.file) && i < |events|
    requires states[i].r.lastId < Total(job.file) == states[i + 1].r.lastId
    ensures states[i + 1].rp.Leaving? <==> SeqNum(states[i].r.lastId) <= SeqNum(Total(job.file) - 1)
  {
    hide Inv, Next, Enabled, Total, SeqNum;
    RunKeeps(job, states, events, i);
    OnlyPassesMove(job, states[i], events[i]);
    CompletingPass(job, states[i], events[i].buf, events[i].now);
  }

  lemma PassAfterEnd(job: Job, y: System, buf: seq<Byte>, now: nat)
    requires Inv(job, y) && Enabled(y, ReceiverPass(buf, now)) && y.r.lastId == Total(job.file)
    ensures Next(job, y, ReceiverPass(buf, now)).r == y.r && Next(job, y, ReceiverPass(buf, now)).rp == Receiving
  {
    InvData(job, y);
    hide Inv, DataInv, Deliverable, R.Handle, Acknowledge, Total, SeqNum, Later, Reassembling;
    HandleExit(job, y.s.packetId, y.r, y.data, buf);
  }

  /** Only a pass of the receiver's loop changes its position. */
  lemma OnlyPassesMove(job: Job, y: System, e: Event)
    requires Enabled(y, e)
    ensures !e.ReceiverPass? ==> Next(job, y, e).r == y.r
    ensures y.rp.Leaving? ==> Next(job, y, e).rp.Leaving?
    ensures e.ReceiverPass? ==> y.rp == Receiving
    ensures !e.ReceiverPass? && y.rp == Receiving ==> Next(job, y, e).rp == Receiving
  {
  }

  lemma NoCrossStep(job: Job, y: System, e: Event)
    requires Inv(job, y) && Enabled(y, e) && NoCross(job.file)
    requires y.r.lastId == Total(job.file) ==> y.rp.Leaving?
    ensures Next(job, y, e).r.lastId == Total(job.file) ==> Next(job, y, e).rp.Leaving?
  {
    hide Inv, Next, Enabled, Total, DataInv, Reassembling, Sized;
    InvData(job, y);
    OnlyPassesMove(job, y, e);
    if e.ReceiverPass? && Next(job, y, e).r.lastId == Total(job.file) {
      CompletingPass(job, y, e.buf, e.now);
      ReaderNearEnd(job, y, e);
      LastWindowOrder(job.file, y.r.lastId);
    }
  }

  /** A receiver that missed its exit never leaves: once the file is complete and the
      loop goes on, it goes on in every later state of the run. */
  lemma {:induction false} MissedExitLasts(job: Job, states: seq<System>, events: seq<Event>, i: nat, k: nat)
    requires Run(job, states, events) && Sized(job.file) && i <= k < |states|
    requires states[i].r.lastId == Total(job.file) && states[i].rp == Receiving
    ensures states[k].r == states[i].r && states[k].rp == Receiving
    decreases k - i
  {
    hide Inv, Next, Enabled, Total;
    if i >= k {
    } else {
      MissedExitLasts(job, states, events, i, k - 1);
      RunKeeps(job, states, events, k - 1);
      OnlyPassesMove(job, states[k - 1], events[k - 1]);
      if events[k - 1].ReceiverPass? {
        PassAfterEnd(job, states[k - 1], events[k - 1].buf, events[k - 1].now);
      }
    }
  }

  /** The position from which a pass completes the file is at most a window away. */
  lemma ReaderNearEnd(job: Job, y: System, e: Event)
    requires Inv(job, y) && Enabled(y, e) && Next(job, y, e).r.lastId == Total(job.file)
    ensures Total(job.file) <= y.r.lastId + WINDOW_LEN
  {
    hide Inv, Next, Enabled, Total;
    NextKeeps(job, y, e);
    OnlyPassesMove(job, y, e);
    WindowAhead(job, y);
    WindowAhead(job, Next(job, y, e));
    SameReader(job, y, e);
  }

  lemma SameReader(job: Job, y: System, e: Event)
    requires Enabled(y, e)
    ensures e.ReceiverPass? ==> Next(job, y, e).s == y.s
  {
    hide R.Handle, Acknowledge;
  }

  lemma WindowAhead(job: Job, y: System)
    requires Inv(job, y)
    ensures y.r.lastId <= y.s.packetId <= y.r.lastId + WINDOW_LEN && y.s.packetId <= Total(job.file)
  {
    hide AcksInv, DataInv, Indexed, HoldsSent, LastSeen, Prefix, Total;
  }

  /** In every run of a file whose last window does not cross the wrap, a receiver with
      the whole file has left its loop ... */
  lemma {:induction false} NoCrossLeaves(job: Job, states: seq<System>, events: seq<Event>, i: nat)
    requires Run(job, states, events) && Sized(job.file) && NoCross(job.file) && i < |states|
    ensures states[i].r.lastId == Total(job.file) ==> states[i].rp.Leaving?
  {
    hide Inv, Next, Enabled, Total, NoCross;
    if i == 0 {
    } else {
      NoCrossLeaves(job, states, events, i - 1);
      RunKeeps(job, states, events, i - 1);
      NoCrossStep(job, states[i - 1], events[i - 1]);
    }
  }

  /** ... and the sender is never stalled. */
  lemma NoCrossSends(job: Job, states: seq<System>, events: seq<Event>, i: nat)
    requires Run(job, states, events) && Sized(job.file) && NoCross(job.file) && i < |states|
    ensures !Stalled(states[i].s)
  {
    hide Run, NoCross, Stalled, Inv;
    RunKeeps(job, states, events, i);
    SenderFacts(job, states[i]);
    NoCrossNeverStalls(job.file, states[i].s);
  }

  // ---------------------------------------------------------------- progress

  lemma NothingReceived(buf: seq<Byte>, acks: set<SentAck>)
    requires buf == []
    ensures Deliverable(AckDatagrams(acks), buf) && ParseAck(buf) == None
  {
  }

  /** The alarms that make every waiting packet time out. */
  function AllExpired(): (s: seq<bool>)
    ensures |s| == SEQ_LEN && forall k :: 0 <= k < SEQ_LEN ==> s[k]
  {
    seq(SEQ_LEN, _ => true)
  }

  /** Unless the sender is stalled, a pass on which everything has timed out transmits
      the packet at the base. */
  lemma HeadIsResent(job: Job, s: AlignedSender)
    requires Indexed(job.file, s) && Sized(job.file) && !Stalled(s)
    ensures var (t, outcome, sent) := Pass(job.file, s, AllExpired(), []);
      && outcome == Handled && Base(t) == Base(s) < t.packetId && t.lastAckTime == s.lastAckTime
      && PacketOf(job.file, Base(s)) in sent
  {
    hide Indexed, Sized, Total, FillTo, ParseAck, CheckTimeout, PacketOf, Due, Stalled, Deliverable, AckDatagrams,
      Aligned;
    NothingReceived([], {});
    var u := CheckTimeout(s, AllExpired());
    TimeoutsIndexed(job.file, s, AllExpired());
    TimeoutsKeepAlignment(s, AllExpired());
    HeadIsDue(job.file, s, u);
    SendsAllDue(job.file, u);
  }

  lemma SendsAllDue(file: seq<Byte>, u: AlignedSender)
    requires Indexed(file, u) && Sized(file) && !Stalled(u)
    ensures var (t, sent) := SendWindow(u, file);
      && Base(t) == Base(u) < t.packetId && t.lastAckTime == u.lastAckTime && Base(u) >= 0
      && forall p <- Due(file, u, 1) :: p in sent
  {
    hide Indexed, Sized, FillTo, PacketOf, Due, Stalled, Aligned;
    InFile(file, u);
    FillExactly(file, u, u.laSeq + WINDOW_LEN);
    DueGrows(file, u, 1, Slots(file, u, u.laSeq + WINDOW_LEN));
    hide Total;
  }

  lemma HeadIsDue(file: seq<Byte>, s: AlignedSender, u: AlignedSender)
    requires Indexed(file, s) && u == CheckTimeout(s, AllExpired()) && Base(u) == Base(s)
    ensures !Stalled(s) ==> !Stalled(u)
    ensures PacketOf(file, Base(s)) in Due(file, u, 1)
  {
  }

  lemma {:induction false} DueGrows(file: seq<Byte>, s: AlignedSender, m: nat, n: nat)
    requires Base(s) >= 0 && m <= n
    ensures forall p <- Due(file, s, m) :: p in Due(file, s, n)
  {
    hide DueAt;
    if m >= n {
    } else {
      DueGrows(file, s, m, n - 1);
    }
  }

  /** The head is resent exactly unless the sender is stalled: its base lies above the
      wrapped sequence number of the last packet. A stalled sender sends nothing at all. */
  lemma ResendsExactly(job: Job, s: AlignedSender)
    requires Indexed(job.file, s) && Sized(job.file)
    ensures PacketOf(job.file, Base(s)) in Pass(job.file, s, AllExpired(), []).2 <==> !Stalled(s)
    ensures Stalled(s) ==> Pass(job.file, s, AllExpired(), []).2 == []
  {
    hide Indexed, Sized, Total, FillTo, ParseAck, PacketOf, Deliverable, AckDatagrams, Aligned, Expired;
    NothingReceived([], {});
    if Stalled(s) {
      StalledSendsNothing(CheckTimeout(s, AllExpired()), job.file);
    } else {
      HeadIsResent(job, s);
    }
    hide SendWindow;
  }

  /** First step: the head packet is in flight. */
  lemma RoundSend(job: Job, y: System) returns (y1: System)
    requires Inv(job, y) && y.sp == Sending && y.rp == Receiving && !Stalled(y.s)
    ensures Enabled(y, SenderPass(AllExpired(), [])) && y1 == Next(job, y, SenderPass(AllExpired(), []))
    ensures Inv(job, y1) && y1.sp == Sending && y1.rp == Receiving && y1.r == y.r && y1.acks == y.acks
    ensures y1.clock == y.clock && y1.s.lastAckTime == y.s.lastAckTime
    ensures 0 <= Base(y1.s) == Base(y.s) < y1.s.packetId
    ensures EncodeData(PacketOf(job.file, Base(y.s))) in y1.data
  {
    hide Inv, Pass, Stalled, Deliverable, EncodeData, PacketOf, Indexed, Sized, Total;
    NothingReceived([], y.acks);
    SenderFacts(job, y);
    HeadIsResent(job, y.s);
    var e := SenderPass(AllExpired(), []);
    NextKeeps(job, y, e);
    y1 := Next(job, y, e);
    InDatagrams(Pass(job.file, y.s, AllExpired(), []).2, PacketOf(job.file, Base(y.s)));
    hide Datagrams;
  }

  lemma SenderFacts(job: Job, y: System)
    requires Inv(job, y)
    ensures Indexed(job.file, y.s) && Sized(job.file) && 0 <= Base(y.s)
  {
  }

  lemma InDatagrams(sent: seq<Packet>, p: Packet)
    requires p in sent
    ensures EncodeData(p) in Datagrams(sent)
  {
  }

  /** Second step: with the head packet delivered the receiver is beyond the base. */
  lemma RoundReceive(job: Job, y: System, now: nat) returns (y2: System)
    requires Inv(job, y) && y.sp == Sending && y.rp == Receiving && Later(y.clock, now)
    requires 0 <= Base(y.s) < y.s.packetId && EncodeData(PacketOf(job.file, Base(y.s))) in y.data
    ensures Enabled(y, ReceiverPass(EncodeData(PacketOf(job.file, Base(y.s))), now))
    ensures y2 == Next(job, y, ReceiverPass(EncodeData(PacketOf(job.file, Base(y.s))), now))
    ensures Inv(job, y2) && y2.sp == Sending && y2.s == y.s && y2.r.lastId > Base(y.s) && y2.clock == now
    ensures y2.r.lastId < Total(job.file) ==> y2.rp == Receiving
    ensures Acknowledge(y2.r, now) in y2.acks
  {
    hide Inv, R.Handle, EncodeData, PacketOf, Acknowledge, Later, DataInv, Indexed, Sized, Total, Reassembling, Intact;
    var buf := EncodeData(PacketOf(job.file, Base(y.s)));
    var e := ReceiverPass(buf, now);
    NextKeeps(job, y, e);
    y2 := Next(job, y, e);
    InvData(job, y);
    InvBounds(job, y);
    HandleKeeps(job, y.s.packetId, y.r, y.data, buf);
    if y.r.lastId == Base(y.s) {
      HeadHandled(job, y.s.packetId, y.r, buf);
    }
    StaysUntilDone(job, y2);
  }

  lemma StaysUntilDone(job: Job, y: System)
    requires Inv(job, y)
    ensures y.r.lastId < Total(job.file) ==> !y.rp.Leaving?
  {
  }

  lemma HeadHandled(job: Job, n: nat, r: R.OrderedReceiver, buf: seq<Byte>)
    requires Reassembling(job.file, n, r) && Sized(job.file) && r.readyExit != 2
    requires r.lastId < n && buf == EncodeData(PacketOf(job.file, r.lastId))
    ensures R.Handle(r, buf).lastId > r.lastId
  {
    DataRoundTrip(PacketOf(job.file, r.lastId));
    HeadAdvances(job.file, n, r);
    assert PacketOf(job.file, r.lastId).seqNum < SEQ_LEN;
    hide EncodeData, ParseData, R.Receive, Reassembling, Payload;
  }

  /** Third step: the fresh acknowledgement moves the base, or ends the transfer. */
  lemma RoundAck(job: Job, y: System, now: nat) returns (y3: System)
    requires Inv(job, y) && y.sp == Sending && y.r.lastId > Base(y.s)
    requires Acknowledge(y.r, now) in y.acks && U32(now) > y.s.lastAckTime
    ensures Enabled(y, SenderPass(AllExpired(), Acknowledge(y.r, now).datagram))
    ensures y3 == Next(job, y, SenderPass(AllExpired(), Acknowledge(y.r, now).datagram))
    ensures Inv(job, y3) && y3.r == y.r && y3.rp == y.rp && y3.clock == y.clock
    ensures y3.sp == Closed || (y3.sp == Sending && Base(y3.s) == y.r.lastId && y3.s.lastAckTime == U32(now))
    ensures y3.sp == Closed <==> y.r.lastId == Total(job.file)
  {
    hide Inv, Pass, EncodeAck, Intact, DataInv, Indexed, Sized, Total, Reassembling;
    SenderFacts(job, y);
    InvData(job, y);
    InvBounds(job, y);
    AtPosition(job, y);
    var e := SenderPass(AllExpired(), Acknowledge(y.r, now).datagram);
    y3 := Next(job, y, e);
    NextKeeps(job, y, e);
    AckPass(job, y.s, Acknowledge(y.r, now).datagram, y.r.lastId, now);
  }

  lemma AtPosition(job: Job, y: System)
    requires Inv(job, y)
    ensures y.r.laSeq == SeqNum(y.r.lastId)
  {
  }

  lemma AckPass(job: Job, s: AlignedSender, ack: seq<Byte>, pos: nat, now: nat)
    requires Indexed(job.file, s) && Sized(job.file) && Base(s) < pos <= s.packetId && U32(now) > s.lastAckTime
    requires ack == EncodeAck(MakeAck(SeqNum(pos), now))
    ensures var (t, outcome, sent) := Pass(job.file, s, AllExpired(), ack);
      && (outcome == Finished <==> pos == Total(job.file))
      && (outcome == Finished || (Base(t) == pos && t.lastAckTime == U32(now)))
  {
    AckSurvives(SeqNum(pos), now);
    StampIsClock(SeqNum(pos), now);
    assert MakeAck(SeqNum(pos), now).num == AckNum(pos);
    hide Indexed, Sized, CheckTimeout, SendWindow, HandleAck, Stamp, ParseAck, EncodeAck, MakeAck, AckNum, Total;
    var t := CheckTimeout(s, AllExpired());
    TimeoutsIndexed(job.file, s, AllExpired());
    TimeoutsKeepAlignment(s, AllExpired());
    AckMovesBase(job.file, t, pos, U32(now));
    SendStep(job, HandleAck(t, AckNum(pos), U32(now)).0);
  }

  /** A continuation of a run from state y. */
  ghost predicate Continues(job: Job, y: System, states: seq<System>, events: seq<Event>) {
    && |states| == |events| + 1 && states[0] == y
    && forall i :: 0 <= i < |events| ==>
         Enabled(states[i], events[i]) && states[i + 1] == Next(job, states[i], events[i])
  }

  /** One loss-free round (everything times out and is sent again, the head packet arrives,
      the acknowledgement of that pass arrives with a new stamp) ends the transfer or
      strictly raises the base. */
  lemma OneRound(job: Job, y: System, now: nat) returns (states: seq<System>, events: seq<Event>)
    requires Inv(job, y) && y.sp == Sending && y.rp == Receiving && !Stalled(y.s)
    requires Later(y.clock, now) && U32(now) > y.s.lastAckTime
    ensures |events| == 3 && |states| == 4 && Continues(job, y, states, events)
    ensures var z := states[3];
      && Inv(job, z) && z.clock == now
      && (z.sp == Closed ||
          (z.sp == Sending && z.rp == Receiving && Base(z.s) > Base(y.s) && z.s.lastAckTime == U32(now)))
  {
    hide *;
    var y1 := RoundSend(job, y);
    var buf := EncodeData(PacketOf(job.file, Base(y.s)));
    var y2 := RoundReceive(job, y1, now);
    var y3 := RoundAck(job, y2, now);
    states := [y, y1, y2, y3];
    events := [SenderPass(AllExpired(), []), ReceiverPass(buf, now),
               SenderPass(AllExpired(), Acknowledge(y2.r, now).datagram)];
    InvBounds(job, y2);
    PositionBound(job, y2);
    assert Continues(job, y, states, events) by {
      ThreeSteps(job, states, events);
    }
  }

  lemma ThreeSteps(job: Job, states: seq<System>, events: seq<Event>)
    requires |events| == 3 && |states| == 4
    requires Enabled(states[0], events[0]) && states[1] == Next(job, states[0], events[0])
    requires Enabled(states[1], events[1]) && states[2] == Next(job, states[1], events[1])
    requires Enabled(states[2], events[2]) && states[3] == Next(job, states[2], events[2])
    ensures Continues(job, states[0], states, events)
  {
    hide Enabled, Next;
  }

  lemma PositionBound(job: Job, y: System)
    requires Inv(job, y)
    ensures y.r.lastId <= Total(job.file) && Base(y.s) < Total(job.file)
  {
  }

  lemma ContinuesOn(job: Job, y: System, states: seq<System>, events: seq<Event>, more: seq<System>, rest: seq<Event>)
    requires |states| == |events| + 1 && |more| == |rest| + 1
    requires Continues(job, y, states, events) && Continues(job, states[|events|], more, rest)
    ensures Continues(job, y, states + more[1..], events + rest)
    ensures |states + more[1..]| == |events + rest| + 1
    ensures (states + more[1..])[|events + rest|] == more[|rest|]
  {
    hide Enabled, Next;
    var s, e := states + more[1..], events + rest;
    forall i | 0 <= i < |e|
      ensures Enabled(s[i], e[i]) && s[i + 1] == Next(job, s[i], e[i])
    {
      if i < |events| {
        assert s[i] == states[i] && s[i + 1] == states[i + 1] && e[i] == events[i];
      } else {
        var k := i - |events|;
        assert e[i] == rest[k] && s[i + 1] == more[k + 1];
        assert s[i] == more[k];
      }
    }
  }

  /** Both sides are in their loops, and the clock has room for one new stamp a round. */
  ghost predicate GoingOn(job: Job, y: System, now: nat) {
    && y.sp == Sending && y.rp == Receiving && Later(y.clock, now) && U32(now) > y.s.lastAckTime
    && U32(now) + Total(job.file) - Base(y.s) < 0x1_0000_0000
  }

  /** Progress: from every state of every run in which both sides are in their loops and
      the sender is not stalled, one loss-free round ends the transfer or strictly raises
      the base. */
  lemma RoundProgresses(job: Job, run: seq<System>, past: seq<Event>, i: nat, now: nat)
    returns (states: seq<System>, events: seq<Event>)
    requires Run(job, run, past) && Sized(job.file) && i < |run| && GoingOn(job, run[i], now) && !Stalled(run[i].s)
    ensures |events| == 3 && |states| == 4 && Continues(job, run[i], states, events)
    ensures states[3].sp == Closed || Base(states[3].s) > Base(run[i].s)
  {
    hide Run, Inv, Continues, Stalled, Later, Total;
    RunKeeps(job, run, past, i);
    states, events := OneRound(job, run[i], now);
  }

  /** No dead ends: from every state of every run in which both sides are in their loops,
      loss-free rounds lead to the end of the transfer, with the whole file written, or
      to a stalled sender; a file whose last window does not cross the wrap is always
      completed. */
  lemma RoundsComplete(job: Job, run: seq<System>, past: seq<Event>, i: nat, now: nat)
    returns (states: seq<System>, events: seq<Event>)
    requires Run(job, run, past) && Sized(job.file) && i < |run| && GoingOn(job, run[i], now)
    ensures |states| == |events| + 1 && Continues(job, run[i], states, events)
    ensures states[|events|].sp == Closed || Stalled(states[|events|].s)
    ensures NoCross(job.file) ==> states[|events|].sp == Closed
    ensures states[|events|].sp == Closed ==> states[|events|].r.written == job.file
  {
    hide Run, Inv, Continues, Stalled, Later, Total;
    RunKeeps(job, run, past, i);
    states, events := RoundsFrom(job, run[i], now);
  }

  lemma {:induction false} RoundsFrom(job: Job, y: System, now: nat) returns (states: seq<System>, events: seq<Event>)
    requires Inv(job, y) && y.sp == Sending && y.rp == Receiving
    requires Later(y.clock, now) && U32(now) > y.s.lastAckTime && U32(now) + Total(job.file) - Base(y.s) < 0x1_0000_0000
    ensures |states| == |events| + 1 && Continues(job, y, states, events)
    ensures var z := states[|events|];
      && (z.sp == Closed || Stalled(z.s))
      && (NoCross(job.file) ==> z.sp == Closed)
      && (z.sp == Closed ==> z.r.written == job.file)
    decreases Total(job.file) - Base(y.s)
  {
    hide *;
    PositionBound(job, y);
    SenderFacts(job, y);
    if Stalled(y.s) {
      states, events := [y], [];
      Stays(job, y);
      if NoCross(job.file) {
        NoCrossNeverStalls(job.file, y.s);
      }
      NotClosed(job, y);
    } else {
      states, events := OneRound(job, y, now);
      var z := states[3];
      if z.sp == Closed {
        ClosedIsWhole(job, z);
      } else {
        NextTick(z.clock, now);
        var more, rest := RoundsFrom(job, z, now + 1);
        ContinuesOn(job, y, states, events, more, rest);
        states, events := states + more[1..], events + rest;
      }
    }
  }

  lemma Stays(job: Job, y: System)
    ensures Continues(job, y, [y], [])
  {
  }

  lemma NotClosed(job: Job, y: System)
    requires y.sp == Sending
    ensures y.sp != Closed
  {
  }

  lemma ClosedIsWhole(job: Job, y: System)
    requires Inv(job, y) && y.sp == Closed
    ensures y.r.written == job.file
  {
  }

  lemma NextTick(clock: nat, now: nat)
    requires clock == now && U32(now) + 1 < 0x1_0000_0000
    ensures Later(clock, now + 1) && U32(now + 1) == U32(now) + 1
  {
  }
}
