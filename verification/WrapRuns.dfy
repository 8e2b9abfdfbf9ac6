/** Runs across the wrap: for every file whose last window crosses it there is a run that
    stalls the sender, and one whose receiver loops for ever with the whole file. */
module WrapRuns {
  import opened Bits
  import opened Window
  import opened Wire
  import opened Stamps
  import opened Segments
  import opened SendFile
  import opened SenderIndices
  import opened ReceiverIndices
  import opened Transfer
  import opened TransferTheorems
  import opened Words
  import R = RecvFile

  // ---------------------------------------------------------------- the receiver

  /** Exactly the window slots from offset lo on are flagged. */
  predicate Flagged(r: R.Receiver, lo: nat)
    requires R.Shaped(r)
  {
    forall k :: 0 <= k < SEQ_LEN ==> (r.received[k] <==> lo <= MapToWindow(r.laSeq, k) < WINDOW_LEN)
  }

  /** How many packets an arrival at s releases, with these flags set. */
  function ReleasedBy(flags: seq<bool>, laSeq: nat, s: nat): nat
    requires |flags| == SEQ_LEN
  {
    if s == laSeq then R.Run(flags, laSeq, laSeq + WINDOW_LEN) else 0
  }

  /** Packet j arrives: it is flagged, and what it completes is written. */
  lemma ArrivalSettles(file: seq<Byte>, n: nat, r: R.OrderedReceiver, j: nat)
    requires Reassembling(file, n, r) && r.readyExit != 2 && r.lastId <= j < n && !Holds(r, j)
    ensures MapToWindow(r.laSeq, SeqNum(j)) == j - r.lastId
    ensures var flags, q := r.received[SeqNum(j) := true], R.Receive(r, PacketOf(file, j));
      var m := ReleasedBy(flags, r.laSeq, SeqNum(j));
      q.lastId == r.lastId + m && q.laSeq == SeqNum(q.lastId) && q.received == R.Unflagged(flags, r.laSeq, m)
  {
    hide Payload, Prefix, HoldsSent, LastSeen, SeqNum, R.Run;
    var p := PacketOf(file, j);
    FreshIsInWindow(file, n, r, j);
    NoteKeeps(file, n, r, j);
    StoreLoads(file, n, R.Note(r, p), j);
    SettleKeeps(file, n, R.Store(R.Note(r, p), p), j);
  }

  /** Offset d of the window is the sequence number d beyond the base, and no other. */
  lemma OffsetOf(r: R.Receiver, j: nat)
    requires R.Shaped(r) && r.laSeq == SeqNum(r.lastId) && r.lastId <= j < r.lastId + WINDOW_LEN
    ensures SeqNum(r.laSeq + (j - r.lastId)) == SeqNum(j) && MapToWindow(r.laSeq, SeqNum(j)) == j - r.lastId
    ensures forall k :: 0 <= k < SEQ_LEN && k != SeqNum(j) ==> MapToWindow(r.laSeq, k) != j - r.lastId
  {
    SeqNumAdd(r.lastId, j - r.lastId);
    SlotOffset(r.laSeq, r.laSeq + (j - r.lastId));
  }

  /** What is released when exactly the slots from lo on and the base are flagged. */
  lemma ReleasedOf(flags: seq<bool>, laSeq: nat, lo: nat)
    requires |flags| == SEQ_LEN && laSeq < SEQ_LEN && 0 < lo <= WINDOW_LEN
    requires forall k :: 0 <= k < SEQ_LEN ==>
               (flags[k] <==> k == laSeq || lo <= MapToWindow(laSeq, k) < WINDOW_LEN)
    ensures ReleasedBy(flags, laSeq, laSeq) == if lo > 1 then 1 else WINDOW_LEN
  {
    var m := ReleasedBy(flags, laSeq, laSeq);
    if m < WINDOW_LEN {
      SlotOffset(laSeq, laSeq + m);
    }
    if m > 1 {
      SlotOffset(laSeq, laSeq + 1);
      assert flags[SeqNum(laSeq + 1)];
    }
  }

  /** The head arrives while nothing else is stored: one packet is written. */
  lemma HeadAlone(file: seq<Byte>, n: nat, r: R.OrderedReceiver)
    requires Reassembling(file, n, r) && r.readyExit != 2 && r.lastId < n && Flagged(r, WINDOW_LEN)
    ensures var q := R.Receive(r, PacketOf(file, r.lastId));
      q.lastId == r.lastId + 1 && Flagged(q, WINDOW_LEN)
  {
    hide Payload, HoldsSent, LastSeen, ReleasedBy, R.Receive, Prefix, PacketOf;
    ArrivalSettles(file, n, r, r.lastId);
    OffsetOf(r, r.lastId);
    ReleasedOf(r.received[r.laSeq := true], r.laSeq, WINDOW_LEN);
  }

  /** A packet from the end of the window arrives before everything in front of it. */
  lemma TailArrives(file: seq<Byte>, n: nat, r: R.OrderedReceiver, lo: nat)
    requires Reassembling(file, n, r) && r.readyExit != 2
    requires 1 < lo <= WINDOW_LEN && r.lastId + lo <= n && Flagged(r, lo)
    ensures var q := R.Receive(r, PacketOf(file, r.lastId + lo - 1));
      q.lastId == r.lastId && Flagged(q, lo - 1)
  {
    hide Payload, HoldsSent, LastSeen, R.Run, R.Receive, Prefix, PacketOf;
    var j := r.lastId + lo - 1;
    OffsetOf(r, j);
    ArrivalSettles(file, n, r, j);
  }

  /** The head arrives last and releases the whole window. */
  lemma HeadReleasesAll(file: seq<Byte>, n: nat, r: R.OrderedReceiver)
    requires Reassembling(file, n, r) && r.readyExit != 2 && r.lastId < n && Flagged(r, 1)
    ensures R.Receive(r, PacketOf(file, r.lastId)).lastId == r.lastId + WINDOW_LEN
  {
    hide Payload, HoldsSent, LastSeen, ReleasedBy, R.Receive, Prefix, PacketOf;
    OffsetOf(r, r.lastId);
    ArrivalSettles(file, n, r, r.lastId);
    ReleasedOf(r.received[r.laSeq := true], r.laSeq, 1);
  }

  // ---------------------------------------------------------------- the sender

  /** How far a window from base b reaches into the file. */
  function Ahead(file: seq<Byte>, b: nat): nat {
    Min(b + WINDOW_LEN, Total(file))
  }

  /** t has read on to n, and everything newly read was sent. */
  ghost predicate ReadsOn(file: seq<Byte>, s: AlignedSender, t: AlignedSender, sent: seq<Packet>, n: nat) {
    t.packetId == n && forall j: nat :: s.packetId <= j < n ==> PacketOf(file, j) in sent
  }

  lemma {:induction false} DueHas(file: seq<Byte>, s: AlignedSender, n: nat, w: nat)
    requires Base(s) >= 0 && |s.queue| <= w < n <= WINDOW_LEN
    ensures PacketOf(file, Base(s) + w) in Due(file, s, n)
  {
    hide PacketOf;
    if w == n - 1 {
      SlotOffset(s.laSeq, s.laSeq + w);
      assert DueAt(file, s, w) == [PacketOf(file, Base(s) + w)];
    } else {
      DueHas(file, s, n - 1, w);
    }
  }

  lemma FillAhead(file: seq<Byte>, s: AlignedSender)
    requires Indexed(file, s) && Sized(file) && !Stalled(s)
    ensures 0 <= Base(s) && ReadsOn(file, s, SendWindow(s, file).0, SendWindow(s, file).1, Ahead(file, Base(s)))
  {
    hide Indexed, Sized, FillTo, PacketOf, Due, Stalled, Aligned, Total;
    InFile(file, s);
    FillExactly(file, s, s.laSeq + WINDOW_LEN);
    ReadSoFar(file, s);
    var n := Slots(file, s, s.laSeq + WINDOW_LEN);
    forall j: nat | s.packetId <= j < Ahead(file, Base(s))
      ensures PacketOf(file, j) in SendWindow(s, file).1
    {
      DueHas(file, s, n, j - Base(s));
    }
  }

  lemma ReadSoFar(file: seq<Byte>, s: AlignedSender)
    requires Indexed(file, s)
    ensures s.packetId <= Total(file) && s.packetId == Base(s) + |s.queue| <= Base(s) + WINDOW_LEN
  {
  }

  /** A sender that has not read the whole file is not stalled. */
  lemma NotStalledYet(file: seq<Byte>, s: AlignedSender)
    requires Indexed(file, s) && s.packetId < Total(file)
    ensures !Stalled(s)
  {
  }

  /** A pass that reads nothing from the network fills the window. */
  lemma QuietPassFills(job: Job, s: AlignedSender)
    requires Indexed(job.file, s) && Sized(job.file) && s.packetId < Total(job.file)
    ensures var (t, outcome, sent) := Pass(job.file, s, AllExpired(), []);
      0 <= Base(s) && outcome == Handled && ReadsOn(job.file, s, t, sent, Ahead(job.file, Base(s)))
  {
    hide Indexed, Sized, CheckTimeout, SendWindow, ParseAck, Total, Deliverable, ReadsOn, Ahead;
    NothingReceived([], {});
    TimeoutsIndexed(job.file, s, AllExpired());
    TimeoutsKeepAlignment(s, AllExpired());
    var t := CheckTimeout(s, AllExpired());
    NotStalledYet(job.file, t);
    FillAhead(job.file, t);
    ReadsOnFrom(job.file, s, t, SendWindow(t, job.file).0, SendWindow(t, job.file).1, Ahead(job.file, Base(s)));
  }

  lemma ReadsOnFrom(file: seq<Byte>, s: AlignedSender, s': AlignedSender, t: AlignedSender, sent: seq<Packet>, n: nat)
    requires ReadsOn(file, s', t, sent, n) && s'.packetId == s.packetId
    ensures ReadsOn(file, s, t, sent, n)
  {
  }

  /** A pass that reads the acknowledgement of a new position, while something is still to
      be read, fills the window from there. */
  lemma AckPassFills(job: Job, s: AlignedSender, ack: seq<Byte>, pos: nat, now: nat)
    requires Indexed(job.file, s) && Sized(job.file) && Base(s) < pos <= s.packetId < Total(job.file)
    requires U32(now) > s.lastAckTime && ack == EncodeAck(MakeAck(SeqNum(pos), now))
    ensures var (t, outcome, sent) := Pass(job.file, s, AllExpired(), ack);
      outcome == Handled && ReadsOn(job.file, s, t, sent, Ahead(job.file, pos))
  {
    AckSurvives(SeqNum(pos), now);
    StampIsClock(SeqNum(pos), now);
    NumberIsAckNum(pos, now);
    hide Indexed, Sized, CheckTimeout, SendWindow, HandleAck, Stamp, ParseAck, EncodeAck, MakeAck, AckNum, Total,
      ReadsOn, Ahead;
    var t := CheckTimeout(s, AllExpired());
    TimeoutsIndexed(job.file, s, AllExpired());
    TimeoutsKeepAlignment(s, AllExpired());
    AckMovesBase(job.file, t, pos, U32(now));
    var u := HandleAck(t, AckNum(pos), U32(now)).0;
    NotStalledYet(job.file, u);
    FillAhead(job.file, u);
    ReadsOnFrom(job.file, s, u, SendWindow(u, job.file).0, SendWindow(u, job.file).1, Ahead(job.file, pos));
  }

  // ---------------------------------------------------------------- building runs

  lemma RunExtends(job: Job, states: seq<System>, events: seq<Event>, e: Event)
    requires Run(job, states, events) && Enabled(states[|events|], e)
    ensures Run(job, states + [Next(job, states[|events|], e)], events + [e])
  {
    hide Enabled, Next, Init;
    var z := Next(job, states[|events|], e);
    var s, es := states + [z], events + [e];
    forall i | 0 <= i < |es|
      ensures Enabled(s[i], es[i]) && s[i + 1] == Next(job, s[i], es[i])
    {
      if i < |events| {
        assert s[i] == states[i] && s[i + 1] == states[i + 1] && es[i] == events[i];
      }
    }
  }

  /** Everything that was read is in flight. */
  ghost predicate AllSent(job: Job, y: System) {
    forall j: nat :: j < y.s.packetId ==> EncodeData(PacketOf(job.file, j)) in y.data
  }

  lemma AllSentAfter(job: Job, y: System, expired: seq<bool>, ack: seq<Byte>, n: nat)
    requires AllSent(job, y) && |expired| == SEQ_LEN && Enabled(y, SenderPass(expired, ack))
    requires var (t, outcome, sent) := Pass(job.file, y.s, expired, ack); ReadsOn(job.file, y.s, t, sent, n)
    ensures AllSent(job, Next(job, y, SenderPass(expired, ack)))
  {
    hide Pass, PacketOf, EncodeData, Datagrams, Deliverable;
    var (t, outcome, sent) := Pass(job.file, y.s, expired, ack);
    forall j: nat | j < n
      ensures EncodeData(PacketOf(job.file, j)) in y.data + Datagrams(sent)
    {
      if j >= y.s.packetId {
        InDatagrams(sent, PacketOf(job.file, j));
      }
    }
  }

  /** Sender and receiver in step: everything below b is written and acknowledged, nothing
      else is stored, and the window from b is on its way. */
  ghost predicate InStep(job: Job, y: System, b: nat) {
    && Inv(job, y) && y.sp == Sending && y.rp == Receiving && AllSent(job, y)
    && Base(y.s) == b == y.r.lastId && y.s.packetId == Ahead(job.file, b) && Flagged(y.r, WINDOW_LEN)
    && y.clock == b + 1 == y.s.lastAckTime
  }

  /** The greeting: the file name is sent, admitted and acknowledged. */
  function Greetings(job: Job): seq<Event> {
    [Greet, Admit(EncodeData(NamePacket(job)), 1), Greeted(EncodeAck(MakeAck(0, 1)))]
  }

  function Initial(): System {
    System(Greeting, Start(0), Waiting, R.Start(), 0, {}, {})
  }

  lemma GreetingRun(job: Job) returns (states: seq<System>)
    requires Sized(job.file)
    ensures Run(job, states, Greetings(job))
    ensures var z := states[3];
      && z.sp == Sending && z.rp == Receiving && z.s == Start(1) && z.r == R.Start() && z.clock == 1
  {
    hide EncodeData, EncodeAck, ParseAck, NamePacket, Stamp, Intact, Total;
    var buf, ack := EncodeData(NamePacket(job)), EncodeAck(MakeAck(0, 1));
    NameIsIntact(job);
    AckSurvives(0, 1);
    StampIsClock(0, 1);
    FirstAck();
    var y0 := Initial();
    var y1 := Next(job, y0, Greet);
    var y2 := Next(job, y1, Admit(buf, 1));
    assert y2.acks == {Acknowledge(R.Start(), 1)};
    assert ack in AckDatagrams(y2.acks);
    var y3 := Next(job, y2, Greeted(ack));
    states := [y0, y1, y2, y3];
    hide MakeAck;
    StartOnce(job, states);
  }

  lemma FirstAck()
    ensures MakeAck(0, 1).num == SEQ_LEN - 1 && U32(1) == 1 && Later(0, 1)
  {
  }

  lemma StartOnce(job: Job, states: seq<System>)
    requires |states| == 4 && Init(states[0])
    requires var e := Greetings(job);
      && Enabled(states[0], e[0]) && states[1] == Next(job, states[0], e[0])
      && Enabled(states[1], e[1]) && states[2] == Next(job, states[1], e[1])
      && Enabled(states[2], e[2]) && states[3] == Next(job, states[2], e[2])
    ensures Run(job, states, Greetings(job))
  {
    hide Init, Enabled, Next;
  }

  lemma PassState(job: Job, y: System, expired: seq<bool>, ack: seq<Byte>)
    requires Enabled(y, SenderPass(expired, ack))
    ensures Next(job, y, SenderPass(expired, ack)).s == Pass(job.file, y.s, expired, ack).0
  {
    hide Pass, Deliverable, Datagrams;
  }

  lemma LastKeeps(job: Job, states: seq<System>, events: seq<Event>)
    requires Run(job, states, events) && Sized(job.file)
    ensures |states| == |events| + 1 && Inv(job, states[|events|])
  {
    hide Inv, Next, Enabled, Init;
    RunKeeps(job, states, events, |events|);
  }

  /** A start state is blank on both sides. */
  lemma StartIsBlank(job: Job, y: System)
    requires y.s == Start(1) && y.r == R.Start()
    ensures Base(y.s) == 0 == y.r.lastId && y.s.packetId == 0 < Total(job.file) && Flagged(y.r, WINDOW_LEN)
    ensures AllSent(job, y) && y.s.lastAckTime == 1
  {
  }

  /** The first pass fills the window, and the two are in step. */
  lemma StepZero(job: Job) returns (states: seq<System>, events: seq<Event>)
    requires Sized(job.file)
    ensures Run(job, states, events) && |states| == |events| + 1 && InStep(job, states[|events|], 0)
  {
    hide Run, Inv, Pass, Total, Ahead, Sized, Indexed, Deliverable, ReadsOn, Aligned, AllSent, Flagged, Enabled, Next,
      Stalled;
    states := GreetingRun(job);
    events := Greetings(job);
    LastKeeps(job, states, events);
    var y, e := states[3], SenderPass(AllExpired(), []);
    StartIsBlank(job, y);
    SenderFacts(job, y);
    NotStalledYet(job.file, y.s);
    QuietPassFills(job, y.s);
    var z := RoundSend(job, y);
    AllSentAfter(job, y, AllExpired(), [], Ahead(job.file, 0));
    PassState(job, y, AllExpired(), []);
    ReadsUpTo(job.file, y.s, z.s, Pass(job.file, y.s, AllExpired(), []).2, Ahead(job.file, 0));
    RunExtends(job, states, events, e);
    states, events := states + [z], events + [e];
  }

  lemma ReadsUpTo(file: seq<Byte>, s: AlignedSender, t: AlignedSender, sent: seq<Packet>, n: nat)
    requires ReadsOn(file, s, t, sent, n)
    ensures t.packetId == n
  {
  }

  /** One packet further: the head is delivered and its acknowledgement arrives. */
  lemma StepOn(job: Job, states: seq<System>, events: seq<Event>, b: nat)
    returns (more: seq<System>, rest: seq<Event>)
    requires Run(job, states, events) && Sized(job.file) && |states| == |events| + 1
    requires InStep(job, states[|events|], b) && b + WINDOW_LEN < Total(job.file)
    ensures Run(job, more, rest) && |more| == |rest| + 1 && InStep(job, more[|rest|], b + 1)
  {
    hide Run, Inv, Pass, Total, Sized, Indexed, Deliverable, ReadsOn, Aligned, AllSent, Flagged, Enabled, Next,
      EncodeData, PacketOf, Acknowledge, Later;
    var y, now := states[|events|], b + 2;
    SenderFacts(job, y);
    SmallClock(job.file, b);
    SentAt(job, y, b);
    var z := RoundReceive(job, y, now);
    HeadWritten(job, y, now);
    var e := ReceiverPass(EncodeData(PacketOf(job.file, b)), now);
    RunExtends(job, states, events, e);
    more, rest := states + [z], events + [e];
    AllSentKept(job, y, e);
    SameReader(job, y, e);
    var x := RoundAck(job, z, now);
    AckDatagramOf(job, z, now);
    var f := SenderPass(AllExpired(), Acknowledge(z.r, now).datagram);
    SenderFacts(job, z);
    AckPassFills(job, z.s, Acknowledge(z.r, now).datagram, b + 1, now);
    AllSentAfter(job, z, AllExpired(), Acknowledge(z.r, now).datagram, Ahead(job.file, b + 1));
    PassState(job, z, AllExpired(), Acknowledge(z.r, now).datagram);
    var sent := Pass(job.file, z.s, AllExpired(), Acknowledge(z.r, now).datagram).2;
    ReadsUpTo(job.file, z.s, x.s, sent, Ahead(job.file, b + 1));
    RunExtends(job, more, rest, f);
    more, rest := more + [x], rest + [f];
  }

  lemma SmallClock(file: seq<Byte>, b: nat)
    requires Sized(file) && b + WINDOW_LEN < Total(file)
    ensures Later(b + 1, b + 2) && U32(b + 2) == b + 2
  {
  }

  lemma SentAt(job: Job, y: System, j: nat)
    requires AllSent(job, y) && j < y.s.packetId
    ensures EncodeData(PacketOf(job.file, j)) in y.data
  {
  }

  lemma AllSentKept(job: Job, y: System, e: Event)
    requires AllSent(job, y) && Enabled(y, e) && e.ReceiverPass?
    ensures AllSent(job, Next(job, y, e))
  {
    hide R.Handle, Acknowledge, EncodeData, PacketOf;
  }

  lemma AckDatagramOf(job: Job, y: System, now: nat)
    requires Inv(job, y)
    ensures Acknowledge(y.r, now).datagram == EncodeAck(MakeAck(SeqNum(y.r.lastId), now))
  {
    AtPosition(job, y);
    hide EncodeAck, MakeAck;
  }

  /** The buffer of a packet of the file is handled as that packet. */
  lemma HandledAs(job: Job, r: R.OrderedReceiver, j: nat)
    requires Sized(job.file) && j < Total(job.file)
    ensures PacketOf(job.file, j).seqNum < SEQ_LEN
    ensures R.Handle(r, EncodeData(PacketOf(job.file, j))) == R.Receive(r, PacketOf(job.file, j))
  {
    DataRoundTrip(PacketOf(job.file, j));
    hide EncodeData, ParseData, R.Receive, Payload, Total;
  }

  lemma ReceiverState(job: Job, y: System, buf: seq<Byte>, now: nat)
    requires Enabled(y, ReceiverPass(buf, now))
    ensures Next(job, y, ReceiverPass(buf, now)).r == R.Handle(y.r, buf)
    ensures Next(job, y, ReceiverPass(buf, now)).sp == y.sp && Next(job, y, ReceiverPass(buf, now)).s == y.s
  {
    hide R.Handle, Acknowledge, Deliverable;
  }

  lemma ReaderFacts(job: Job, y: System)
    requires Inv(job, y) && y.rp == Receiving
    ensures Reassembling(job.file, y.s.packetId, y.r) && y.r.readyExit != 2 && y.s.packetId <= Total(job.file)
  {
    hide AcksInv, DataInv, Indexed;
  }

  lemma HeadWritten(job: Job, y: System, now: nat)
    requires Inv(job, y) && Sized(job.file) && y.rp == Receiving && y.r.lastId < y.s.packetId
    requires Flagged(y.r, WINDOW_LEN) && Enabled(y, ReceiverPass(EncodeData(PacketOf(job.file, y.r.lastId)), now))
    ensures var z := Next(job, y, ReceiverPass(EncodeData(PacketOf(job.file, y.r.lastId)), now));
      z.r.lastId == y.r.lastId + 1 && Flagged(z.r, WINDOW_LEN)
  {
    hide Inv, Next, Enabled, R.Handle, R.Receive, EncodeData, PacketOf, Flagged, Total, Sized, Reassembling;
    ReaderFacts(job, y);
    HandledAs(job, y.r, y.r.lastId);
    ReceiverState(job, y, EncodeData(PacketOf(job.file, y.r.lastId)), now);
    HeadAlone(job.file, y.s.packetId, y.r);
  }

  /** In step up to any position whose window begins in the file. */
  lemma {:induction false} StepsTo(job: Job, b: nat) returns (states: seq<System>, events: seq<Event>)
    requires Sized(job.file) && (b == 0 || b + WINDOW_LEN <= Total(job.file))
    ensures Run(job, states, events) && |states| == |events| + 1 && InStep(job, states[|events|], b)
  {
    hide Run, InStep, Total, Sized;
    if b == 0 {
      states, events := StepZero(job);
    } else {
      states, events := StepsTo(job, b - 1);
      states, events := StepOn(job, states, events, b - 1);
    }
  }

  // ---------------------------------------------------------------- the sender stalls

  /** In step with the last window, the sender is stalled exactly if that window crosses
      the wrap. */
  lemma LastWindowStalls(job: Job, y: System, b: nat)
    requires InStep(job, y, b) && b + WINDOW_LEN == Total(job.file) && !NoCross(job.file)
    ensures Stalled(y.s)
  {
    hide Inv, AllSent, Flagged, Total, NoCross, Aligned, SeqNum, Indexed;
    SenderFacts(job, y);
    LastWindowOrder(job.file, b);
    ReadToEnd(job.file, y.s);
  }

  lemma ReadToEnd(file: seq<Byte>, s: AlignedSender)
    requires Indexed(file, s) && s.packetId == Total(file)
    ensures 0 <= Base(s) && s.laSeq == SeqNum(Base(s)) && s.lastWindow == SeqNum(Total(file) - 1)
  {
  }

  lemma CrossingIsLong(file: seq<Byte>)
    requires !NoCross(file)
    ensures Total(file) > SEQ_LEN
  {
  }

  /** Every file whose last window crosses the wrap has a run that ends with both sides in
      their loops, the sender stalled and the file incomplete. */
  lemma CrossingStalls(job: Job) returns (states: seq<System>, events: seq<Event>)
    requires Sized(job.file) && !NoCross(job.file)
    ensures Run(job, states, events) && |states| == |events| + 1
    ensures var z := states[|events|];
      z.sp == Sending && z.rp == Receiving && Stalled(z.s) && z.r.lastId < Total(job.file)
  {
    hide Run, Inv, Total, Sized, NoCross, AllSent, Flagged, Stalled;
    CrossingIsLong(job.file);
    var b := Total(job.file) - WINDOW_LEN;
    states, events := StepsTo(job, b);
    LastWindowStalls(job, states[|events|], b);
  }

  /** A sender can stall exactly if the last window of its file crosses the wrap. */
  lemma StallsExactly(job: Job)
    requires Sized(job.file)
    ensures (exists states: seq<System>, events ::
               Run(job, states, events) && |states| == |events| + 1 && Stalled(states[|events|].s))
        <==> !NoCross(job.file)
  {
    hide Run, NoCross, Stalled;
    if NoCross(job.file) {
      forall states: seq<System>, events | Run(job, states, events) && |states| == |events| + 1
        ensures !Stalled(states[|events|].s)
      {
        LastKeeps(job, states, events);
        NoCrossSends(job, states, events, |events|);
      }
    } else {
      var states, events := CrossingStalls(job);
    }
  }

  // ---------------------------------------------------------------- the exit is missed

  /** The last window is on its way, and exactly its slots from lo on have arrived. */
  ghost predicate Trailing(job: Job, y: System, b: nat, lo: nat) {
    && Inv(job, y) && y.rp == Receiving && AllSent(job, y)
    && b == y.r.lastId && b + WINDOW_LEN == y.s.packetId == Total(job.file) && Flagged(y.r, lo)
  }

  lemma LastWindowTrails(job: Job, y: System, b: nat)
    requires InStep(job, y, b) && b + WINDOW_LEN == Total(job.file)
    ensures Trailing(job, y, b, WINDOW_LEN)
  {
    hide Inv, AllSent, Flagged, Total;
  }

  /** Delivery of a packet that is in flight. */
  lemma ArrivesFrom(job: Job, y: System, j: nat)
    requires Inv(job, y) && AllSent(job, y) && y.rp == Receiving && j < y.s.packetId
    ensures Enabled(y, ReceiverPass(EncodeData(PacketOf(job.file, j)), y.clock))
  {
    hide Inv, AllSent, EncodeData, PacketOf, Intact;
    SentAt(job, y, j);
  }

  /** One more packet from the end of the window arrives out of order. */
  lemma TrailOn(job: Job, states: seq<System>, events: seq<Event>, b: nat, lo: nat)
    returns (more: seq<System>, rest: seq<Event>)
    requires Run(job, states, events) && Sized(job.file) && |states| == |events| + 1
    requires 1 < lo <= WINDOW_LEN && Trailing(job, states[|events|], b, lo)
    ensures Run(job, more, rest) && |more| == |rest| + 1 && Trailing(job, more[|rest|], b, lo - 1)
  {
    hide Run, Inv, Total, Sized, AllSent, Flagged, Enabled, Next, EncodeData, PacketOf, Reassembling, R.Handle,
      R.Receive;
    var y, j := states[|events|], b + lo - 1;
    var e := ReceiverPass(EncodeData(PacketOf(job.file, j)), y.clock);
    ArrivesFrom(job, y, j);
    ReaderFacts(job, y);
    HandledAs(job, y.r, j);
    TailArrives(job.file, y.s.packetId, y.r, lo);
    ReceiverState(job, y, e.buf, y.clock);
    AllSentKept(job, y, e);
    NextKeeps(job, y, e);
    var z := Next(job, y, e);
    StaysUntilDone(job, z);
    StillReceiving(job, y, e);
    RunExtends(job, states, events, e);
    more, rest := states + [z], events + [e];
  }

  lemma StillReceiving(job: Job, y: System, e: Event)
    requires Enabled(y, e) && e.ReceiverPass?
    ensures Next(job, y, e).rp == Receiving || Next(job, y, e).rp.Leaving?
  {
    hide R.Handle, Acknowledge;
  }

  lemma {:induction false} TrailTo(job: Job, b: nat, lo: nat) returns (states: seq<System>, events: seq<Event>)
    requires Sized(job.file) && b + WINDOW_LEN == Total(job.file) && 1 <= lo <= WINDOW_LEN
    ensures Run(job, states, events) && |states| == |events| + 1 && Trailing(job, states[|events|], b, lo)
    decreases WINDOW_LEN - lo
  {
    hide Run, InStep, Trailing, Total, Sized;
    if lo == WINDOW_LEN {
      states, events := StepsTo(job, b);
      LastWindowTrails(job, states[|events|], b);
    } else {
      states, events := TrailTo(job, b, lo + 1);
      states, events := TrailOn(job, states, events, b, lo + 1);
    }
  }

  /** The head of the last window arrives last: the file is complete, and the exit is
      missed exactly if the window crosses the wrap. */
  lemma LastHead(job: Job, y: System, b: nat)
    requires Sized(job.file) && Trailing(job, y, b, 1) && !NoCross(job.file)
    ensures var e := ReceiverPass(EncodeData(PacketOf(job.file, b)), y.clock);
      Enabled(y, e) && Next(job, y, e).r.lastId == Total(job.file) && Next(job, y, e).rp == Receiving
  {
    hide Inv, Total, Sized, AllSent, Flagged, Enabled, Next, EncodeData, PacketOf, Reassembling, R.Handle, R.Receive,
      NoCross;
    var e := ReceiverPass(EncodeData(PacketOf(job.file, b)), y.clock);
    ArrivesFrom(job, y, b);
    ReaderFacts(job, y);
    HandledAs(job, y.r, b);
    HeadReleasesAll(job.file, y.s.packetId, y.r);
    ReceiverState(job, y, e.buf, y.clock);
    CompletingPass(job, y, e.buf, y.clock);
    LastWindowOrder(job.file, b);
    StillReceiving(job, y, e);
  }

  /** Every file whose last window crosses the wrap has a run that ends with the whole file
      written and the receiver still in its loop, where it stays. */
  lemma CrossingMissesExit(job: Job) returns (states: seq<System>, events: seq<Event>)
    requires Sized(job.file) && !NoCross(job.file)
    ensures Run(job, states, events) && |states| == |events| + 1
    ensures states[|events|].r.lastId == Total(job.file) && states[|events|].rp == Receiving
  {
    hide Run, Trailing, Total, Sized, NoCross, Enabled, Next, EncodeData, PacketOf;
    CrossingIsLong(job.file);
    var b := Total(job.file) - WINDOW_LEN;
    states, events := TrailTo(job, b, 1);
    var y := states[|events|];
    LastHead(job, y, b);
    var e := ReceiverPass(EncodeData(PacketOf(job.file, b)), y.clock);
    RunExtends(job, states, events, e);
    states, events := states + [Next(job, y, e)], events + [e];
  }

  /** A receiver can loop on with the whole file exactly if the last window of the file
      crosses the wrap. */
  lemma MissesExitExactly(job: Job)
    requires Sized(job.file)
    ensures (exists states, events ::
               Run(job, states, events) && |states| == |events| + 1 && MissedAt(job, states[|events|]))
        <==> !NoCross(job.file)
  {
    hide Run, NoCross, Total;
    if NoCross(job.file) {
      forall states: seq<System>, events | Run(job, states, events) && |states| == |events| + 1
        ensures !MissedAt(job, states[|events|])
      {
        LastKeeps(job, states, events);
        NoCrossLeaves(job, states, events, |events|);
      }
    } else {
      var states, events := CrossingMissesExit(job);
      assert MissedAt(job, states[|events|]);
    }
  }

  predicate MissedAt(job: Job, y: System) {
    y.r.lastId == Total(job.file) && y.rp == Receiving
  }

  /** The smallest such files: 17 packets, that is, from 512 KB on. */
  lemma SeventeenPacketsCross() returns (file: seq<Byte>)
    ensures |file| == SEQ_LEN * BUFLEN && Total(file) == 17 && Sized(file) && !NoCross(file)
    ensures forall f: seq<Byte> :: |f| < |file| ==> NoCross(f)
  {
    var blank: Byte := Zeros(8);
    file := seq(SEQ_LEN * BUFLEN, _ => blank);
  }
}
