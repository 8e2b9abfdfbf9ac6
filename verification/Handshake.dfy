/** How a transfer begins and how the receiver ends it: the name, its answer and the
    farewells. */
module Handshake {
  import opened Bits
  import opened Layout
  import opened SendFile
  import opened Transfer
  import opened Window
  import opened Wire
  import opened Stamps
  import opened SenderIndices
  import opened TransferTheorems
  import R = RecvFile

  /** The datagram with the name: number 15, zero, type 2, id 0, the name. */
  lemma NameLayout(job: Job)
    ensures var d := EncodeData(NamePacket(job));
      && |d| >= 12 && Intact(d)
      && BigEndian(d, 2, 2) == 15 && BigEndian(d, 4, 2) == 0 && BigEndian(d, 6, 2) == 2 && BigEndian(d, 8, 4) == 0
      && d[12..] == job.name
  {
    hide BigEndian, Intact, EncodeData;
    DataLayout(NamePacket(job));
  }

  /** In every run what a waiting receiver admits is the name that was sent: nothing else can
      be in flight that passes the checksum. */
  lemma NameIsTaken(job: Job, states: seq<System>, events: seq<Event>, i: nat)
    requires Run(job, states, events) && Sized(job.file) && i < |events| && events[i].Admit?
    ensures states[i + 1].rp == Receiving <==> Intact(events[i].buf)
    ensures Intact(events[i].buf) ==> |events[i].buf| >= 12 && events[i].buf[12..] == job.name
  {
    hide Inv, Run, Intact, EncodeData, Later;
    StepOf(job, states, events, i);
    RunKeeps(job, states, events, i);
    OnlyTheName(job, states[i]);
    NameLayout(job);
  }

  lemma OnlyTheName(job: Job, y: System)
    requires Inv(job, y) && y.rp == Waiting
    ensures forall d <- y.data :: d == EncodeData(NamePacket(job))
  {
    hide EncodeData, Indexed, AcksInv;
  }

  /** The stamp in an acknowledgement. */
  function TimeOf(buf: seq<Byte>): nat {
    if |buf| < 16 then 0 else (1_000_000 * BigEndian(buf, 8, 4) + BigEndian(buf, 12, 4)) % 0x1_0000_0000
  }

  /** An intact answer to the name: number 15 and type 1. */
  predicate IsAnswer(buf: seq<Byte>) {
    |buf| >= 16 && Intact(buf) && BigEndian(buf, 4, 2) == 15 && BigEndian(buf, 6, 2) == 1
  }

  lemma AnswerRead(buf: seq<Byte>)
    ensures IsAnswer(buf) <==> ParseAck(buf).Some? && ParseAck(buf).value.num == 15 && ParseAck(buf).value.kind == 1
    ensures ParseAck(buf).Some? ==> Stamp(ParseAck(buf).value) == TimeOf(buf)
  {
    hide BigEndian, Intact;
    if |buf| >= 16 {
      AckFields(buf, |buf|);
      WholeAckIn(buf, |buf|);
      assert buf[..|buf|] == buf;
    }
  }

  /** The sender enters its loop exactly on an answer with a stamp that is not zero, and keeps
      the stamp. */
  lemma GreetedExactly(job: Job, y: System, buf: seq<Byte>)
    requires y.sp == Greeting && y.s == Start(0) && Enabled(y, Greeted(buf))
    ensures Next(job, y, Greeted(buf)) ==
              if IsAnswer(buf) && TimeOf(buf) > 0 then y.(sp := Sending, s := Start(TimeOf(buf))) else y
  {
    AnswerRead(buf);
    hide IsAnswer, TimeOf, ParseAck, Stamp, Deliverable, Aligned;
  }

  /** The farewells among the first n events. */
  function Farewells(events: seq<Event>, n: nat): nat
    requires n <= |events|
  {
    if n == 0 then 0 else Farewells(events, n - 1) + if events[n - 1].Farewell? then 1 else 0
  }

  /** In every run the receiver, once it has left its loop, acknowledges 400 more times and
      no more, each time with its final position. */
  lemma {:induction false} FarewellsExactly(job: Job, states: seq<System>, events: seq<Event>, i: nat)
    requires Run(job, states, events) && i < |states| == |events| + 1
    ensures states[i].rp.Leaving? ==> states[i].rp.farewells + Farewells(events, i) == 400
    ensures !states[i].rp.Leaving? ==> Farewells(events, i) == 0
    ensures Farewells(events, i) <= 400
    ensures i > 0 && events[i - 1].Farewell? ==>
              states[i].acks == states[i - 1].acks + {Acknowledge(states[i - 1].r, events[i - 1].now)}
  {
    hide Run, Pass, R.Handle, EncodeAck, MakeAck, EncodeData, ParseAck, Intact, Deliverable, Later;
    if i == 0 {
      NotLeaving(job, states, events);
    } else {
      FarewellsExactly(job, states, events, i - 1);
      StepOf(job, states, events, i - 1);
    }
  }

  lemma NotLeaving(job: Job, states: seq<System>, events: seq<Event>)
    requires Run(job, states, events)
    ensures |states| > 0 && states[0].rp == Waiting
  {
    hide Enabled, Next;
  }
}
