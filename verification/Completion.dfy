/** Completion from everywhere: from the greeting on, and after the receiver has left. */
module Completion {
  import opened Bits
  import opened Window
  import opened Wire
  import opened Stamps
  import opened Segments
  import opened SendFile
  import opened SenderIndices
  import opened ReceiverIndices
  import opened Transfer
  import opened TransferTheorems
  import opened Words
  import R = RecvFile

  // ---------------------------------------------------------------- the greeting

  /** What is known while the sender is still greeting. */
  lemma GreetingFacts(job: Job, y: System)
    requires Inv(job, y) && y.sp == Greeting
    ensures y.s == Start(0) && y.r.lastId == 0 && y.r.laSeq == 0 && !y.rp.Leaving?
    ensures y.rp == Receiving ==> y.r.readyExit != 2
    ensures y.rp == Waiting ==> y.r == R.Start()
  {
    AtPosition(job, y);
    InvBounds(job, y);
    ReadExit(job, y);
    hide AcksInv, DataInv, Indexed, Reassembling;
  }

  lemma ReadExit(job: Job, y: System)
    requires Inv(job, y)
    ensures y.rp.Leaving? ==> y.r.lastId == Total(job.file)
  {
    hide AcksInv, DataInv, Indexed;
  }

  /** An acknowledgement of position 0 with any stamp ends the greeting. */
  lemma Answered(job: Job, y: System, now: nat)
    requires Inv(job, y) && y.sp == Greeting && EncodeAck(MakeAck(0, now)) in AckDatagrams(y.acks) && U32(now) > 0
    ensures var e := Greeted(EncodeAck(MakeAck(0, now)));
      Enabled(y, e) && Next(job, y, e) == y.(sp := Sending, s := Start(U32(now)))
  {
    GreetingFacts(job, y);
    AckSurvives(0, now);
    StampIsClock(0, now);
    assert MakeAck(0, now).num == SEQ_LEN - 1;
    hide Inv, EncodeAck, MakeAck, ParseAck, Stamp;
  }

  /** A receiver that waits is sent the name again. */
  lemma MeetWaiting(job: Job, y: System, now: nat) returns (states: seq<System>, events: seq<Event>)
    requires Inv(job, y) && y.sp == Greeting && y.rp == Waiting && Later(y.clock, now)
    ensures |states| == |events| + 1 && Continues(job, y, states, events)
    ensures var z := states[|events|];
      && Inv(job, z) && z.sp == Greeting && z.rp == Receiving && z.clock == now
      && EncodeAck(MakeAck(0, now)) in AckDatagrams(z.acks)
  {
    hide Inv, EncodeAck, MakeAck, EncodeData, NamePacket, Intact, Later;
    GreetingFacts(job, y);
    var buf := EncodeData(NamePacket(job));
    NameIsIntact(job);
    var y1 := Next(job, y, Greet);
    var e := Admit(buf, now);
    var y2 := Next(job, y1, e);
    NextKeeps(job, y, Greet);
    NextKeeps(job, y1, e);
    assert Acknowledge(y1.r, now) in y2.acks;
    states, events := [y, y1, y2], [Greet, e];
  }

  /** A receiver in its loop acknowledges position 0 with every pass, so that a lost reply
      to the greeting is repaired. */
  lemma MeetReceiving(job: Job, y: System, now: nat) returns (states: seq<System>, events: seq<Event>)
    requires Inv(job, y) && y.sp == Greeting && y.rp == Receiving && Later(y.clock, now)
    ensures |states| == |events| + 1 && Continues(job, y, states, events)
    ensures var z := states[|events|];
      && Inv(job, z) && z.sp == Greeting && z.rp == Receiving && z.clock == now
      && EncodeAck(MakeAck(0, now)) in AckDatagrams(z.acks)
  {
    hide Inv, EncodeAck, MakeAck, Later;
    GreetingFacts(job, y);
    var e := ReceiverPass([], now);
    var z := Next(job, y, e);
    NextKeeps(job, y, e);
    assert Acknowledge(y.r, now) in z.acks;
    states, events := [y, z], [e];
  }

  /** From the greeting, however much of it was lost, both sides get into their loops. */
  lemma Meet(job: Job, y: System, now: nat) returns (states: seq<System>, events: seq<Event>)
    requires Inv(job, y) && y.sp == Greeting && Later(y.clock, now) && U32(now) > 0
    ensures |states| == |events| + 1 && Continues(job, y, states, events)
    ensures var z := states[|events|];
      && Inv(job, z) && z.sp == Sending && z.rp == Receiving && z.clock == now
      && z.s.lastAckTime == U32(now) && Base(z.s) == 0
  {
    hide Inv, EncodeAck, MakeAck, Later, Continues, Enabled, Next, Aligned;
    GreetingFacts(job, y);
    if y.rp == Waiting {
      states, events := MeetWaiting(job, y, now);
    } else {
      states, events := MeetReceiving(job, y, now);
    }
    var x, e := states[|events|], Greeted(EncodeAck(MakeAck(0, now)));
    Answered(job, x, now);
    NextKeeps(job, x, e);
    OneStep(job, x, e);
    ContinuesOn(job, y, states, events, [x, Next(job, x, e)], [e]);
    states, events := states + [x, Next(job, x, e)][1..], events + [e];
  }

  lemma OneStep(job: Job, y: System, e: Event)
    requires Enabled(y, e)
    ensures Continues(job, y, [y, Next(job, y, e)], [e])
  {
    hide Enabled, Next;
  }

  /** The receiver has not left, and the clock has room for one new stamp a round. */
  ghost predicate Roomy(job: Job, y: System, now: nat) {
    && y.sp != Closed && !y.rp.Leaving? && Later(y.clock, now) && U32(now) > y.s.lastAckTime
    && U32(now) + Total(job.file) + 1 < 0x1_0000_0000
  }

  /** No dead ends: from every state of every run in which the receiver has not left, the
      greeting included, a continuation ends the transfer with the whole file written, or
      stalls the sender; a file whose last window does not cross the wrap is always
      completed. */
  lemma Completes(job: Job, run: seq<System>, past: seq<Event>, i: nat, now: nat)
    returns (states: seq<System>, events: seq<Event>)
    requires Run(job, run, past) && Sized(job.file) && i < |run| && Roomy(job, run[i], now)
    ensures |states| == |events| + 1 && Continues(job, run[i], states, events)
    ensures states[|events|].sp == Closed || Stalled(states[|events|].s)
    ensures NoCross(job.file) ==> states[|events|].sp == Closed
    ensures states[|events|].sp == Closed ==> states[|events|].r.written == job.file
  {
    hide Run, Inv, Continues, Stalled, Later, Total, NoCross;
    RunKeeps(job, run, past, i);
    var y := run[i];
    SenderFacts(job, y);
    Phases(job, y);
    if y.sp == Greeting {
      states, events := Meet(job, y, now);
      var z := states[|events|];
      NextTick(z.clock, now);
      var more, rest := RoundsFrom(job, z, now + 1);
      ContinuesOn(job, y, states, events, more, rest);
      states, events := states + more[1..], events + rest;
    } else {
      states, events := RoundsFrom(job, y, now);
    }
  }

  lemma Phases(job: Job, y: System)
    requires Inv(job, y)
    ensures y.sp == Sending ==> y.rp != Waiting
    ensures y.sp == Greeting ==> y.s.lastAckTime == 0
  {
    hide AcksInv, DataInv, Indexed, Reassembling;
  }

  // ---------------------------------------------------------------- the receiver has left

  /** An acknowledgement of the whole file that the sender would accept is in flight. */
  ghost predicate WholeAcked(job: Job, y: System) {
    exists a <- y.acks :: a.pos == Total(job.file) && U32(a.clock) > y.s.lastAckTime
  }

  /** The receiver can still make a new acknowledgement. */
  ghost predicate MoreAcks(y: System) {
    y.rp.Leaving? && y.rp.farewells > 0 && exists now: nat :: Later(y.clock, now) && U32(now) > y.s.lastAckTime
  }

  /** The whole file is written, the receiver has left its loop, the sender has not. */
  ghost predicate Left(job: Job, y: System) {
    Inv(job, y) && y.sp == Sending && y.rp.Leaving?
  }

  /** The sender finishes only on an acknowledgement of the whole file. */
  lemma FinishNeedsAck(job: Job, y: System, expired: seq<bool>, ack: seq<Byte>)
    requires Inv(job, y) && Enabled(y, SenderPass(expired, ack))
    ensures Pass(job.file, y.s, expired, ack).1 == Finished ==> WholeAcked(job, y)
    ensures Pass(job.file, y.s, expired, ack).0.lastAckTime >= y.s.lastAckTime
  {
    hide Indexed, Reassembling, DataInv, Sized, CheckTimeout, SendWindow, HandleAck, Stamp, ParseAck, EncodeAck,
      MakeAck, Total, Deliverable, Aligned;
    InvBounds(job, y);
    SenderFacts(job, y);
    var t := CheckTimeout(y.s, expired);
    TimeoutsIndexed(job.file, y.s, expired);
    TimeoutsKeepAlignment(y.s, expired);
    var c := DeliveredAck(y.acks, ack, Base(y.s), y.s.lastAckTime, y.r.lastId, y.clock);
    if c.Some? {
      var pos, clock := c.value.pos, c.value.clock;
      StampIsClock(SeqNum(pos), clock);
      NumberIsAckNum(pos, clock);
      if U32(clock) > t.lastAckTime {
        AckMovesBase(job.file, t, pos, U32(clock));
      } else {
        OldStamp(t, AckNum(pos), U32(clock));
      }
      SendStep(job, HandleAck(t, AckNum(pos), U32(clock)).0);
    } else {
      SendStep(job, t);
    }
  }

  lemma OldStamp(s: AlignedSender, num: nat, stamp: nat)
    requires stamp <= s.lastAckTime
    ensures HandleAck(s, num, stamp) == (s, Handled)
  {
  }

  /** Without such an acknowledgement, and no way to make one, nothing changes that. */
  lemma StaysUnfinished(job: Job, y: System, e: Event)
    requires Left(job, y) && !WholeAcked(job, y) && !MoreAcks(y) && Enabled(y, e)
    ensures var z := Next(job, y, e); Left(job, z) && !WholeAcked(job, z) && !MoreAcks(z)
  {
    hide Inv, Pass, Deliverable, EncodeAck, MakeAck, Total, Epoch;
    NextKeeps(job, y, e);
    match e
    case SenderPass(expired, ack) => FinishNeedsAck(job, y, expired, ack);
    case Farewell(now) =>
      assert U32(now) <= y.s.lastAckTime;
  }

  lemma {:induction false} NeverFinishes(job: Job, y: System, states: seq<System>, events: seq<Event>, k: nat)
    requires Left(job, y) && !WholeAcked(job, y) && !MoreAcks(y)
    requires Continues(job, y, states, events) && k < |states|
    ensures Left(job, states[k]) && !WholeAcked(job, states[k]) && !MoreAcks(states[k])
  {
    hide Left, WholeAcked, MoreAcks, Enabled, Next;
    if k == 0 {
    } else {
      NeverFinishes(job, y, states, events, k - 1);
      StaysUnfinished(job, states[k - 1], events[k - 1]);
    }
  }

  /** An accepted acknowledgement of the whole file closes the sender. */
  lemma WholeAckCloses(job: Job, y: System) returns (states: seq<System>, events: seq<Event>)
    requires Left(job, y) && WholeAcked(job, y)
    ensures |states| == |events| + 1 && Continues(job, y, states, events) && states[|events|].sp == Closed
  {
    hide Inv, Pass, EncodeAck, MakeAck, Total, Intact, Indexed;
    var a :| a in y.acks && a.pos == Total(job.file) && U32(a.clock) > y.s.lastAckTime;
    SenderFacts(job, y);
    InvBounds(job, y);
    PositionBound(job, y);
    AcksOf(job, y);
    ReadExit(job, y);
    AckPass(job, y.s, a.datagram, a.pos, a.clock);
    var e := SenderPass(AllExpired(), a.datagram);
    states, events := [y, Next(job, y, e)], [e];
    OneStep(job, y, e);
  }

  lemma AcksOf(job: Job, y: System)
    requires Inv(job, y)
    ensures forall a <- y.acks :: a.datagram == EncodeAck(MakeAck(SeqNum(a.pos), a.clock)) && a.pos <= y.r.lastId
  {
    hide DataInv, Indexed, Reassembling, EncodeAck, MakeAck;
  }

  /** Otherwise a last farewell with a new stamp does. */
  lemma FarewellCloses(job: Job, y: System) returns (states: seq<System>, events: seq<Event>)
    requires Left(job, y) && MoreAcks(y)
    ensures |states| == |events| + 1 && Continues(job, y, states, events) && states[|events|].sp == Closed
  {
    hide Inv, Pass, EncodeAck, MakeAck, Total, Intact, Indexed, Later, Continues;
    var now: nat :| Later(y.clock, now) && U32(now) > y.s.lastAckTime;
    var e := Farewell(now);
    var z := Next(job, y, e);
    NextKeeps(job, y, e);
    ReadExit(job, y);
    assert Acknowledge(y.r, now) in z.acks;
    OneStep(job, y, e);
    states, events := WholeAckCloses(job, z);
    ContinuesOn(job, y, [y, z], [e], states, events);
    states, events := [y, z] + states[1..], [e] + events;
  }

  /** After the receiver has left, the sender can still finish exactly if an acknowledgement
      of the whole file with a newer stamp is in flight or can still be made. */
  lemma FinishesExactly(job: Job, run: seq<System>, past: seq<Event>, i: nat)
    requires Run(job, run, past) && Sized(job.file) && i < |run| && run[i].sp == Sending && run[i].rp.Leaving?
    ensures CanClose(job, run[i]) <==> WholeAcked(job, run[i]) || MoreAcks(run[i])
  {
    hide Run, Inv, WholeAcked, MoreAcks;
    RunKeeps(job, run, past, i);
    var y := run[i];
    assert Left(job, y);
    hide Left;
    if WholeAcked(job, y) {
      var states, events := WholeAckCloses(job, y);
    } else if MoreAcks(y) {
      var states, events := FarewellCloses(job, y);
    } else {
      forall states: seq<System>, events | Continues(job, y, states, events) && |states| == |events| + 1
        ensures states[|events|].sp != Closed
      {
        NeverFinishes(job, y, states, events, |events|);
        LeftIsSending(job, states[|events|]);
      }
    }
  }

  lemma LeftIsSending(job: Job, y: System)
    requires Left(job, y)
    ensures y.sp == Sending
  {
    hide Inv;
  }

  /** Some continuation ends the sender's transfer. */
  ghost predicate CanClose(job: Job, y: System) {
    exists states: seq<System>, events ::
      Continues(job, y, states, events) && |states| == |events| + 1 && states[|events|].sp == Closed
  }
}
