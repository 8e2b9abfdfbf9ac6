/** One pass of the sender in packet indices: which packets it sends, in which order, and
    what it leaves behind, for any time-outs and any acknowledgement of the receiver. */
module SenderEffects {
  import opened Bits
  import opened Segments
  import opened SendFile
  import opened SenderIndices
  import opened Stamps
  import opened Window
  import opened Wire

  /** Is packet j never sent so far, timed out before, or over time now? */
  predicate Wanted(s: AlignedSender, expired: seq<bool>, j: nat)
    requires |expired| == 16
  {
    j >= s.packetId || s.alarms[j % 16].isSet == 2 || expired[j % 16]
  }

  /** The wanted ones of packets b, .., b + n - 1, in order. */
  function ToSend(file: seq<Byte>, s: AlignedSender, expired: seq<bool>, b: nat, n: nat): seq<Packet>
    requires |expired| == 16
  {
    if n == 0 then []
    else ToSend(file, s, expired, b, n - 1)
         + (if Wanted(s, expired, b + n - 1) then [PacketOf(file, b + n - 1)] else [])
  }

  /** Among the packets of the window at b, exactly the unwanted ones wait in u. */
  ghost predicate Carries(s: AlignedSender, expired: seq<bool>, u: AlignedSender, b: nat)
    requires |expired| == 16
  {
    forall j: nat :: b <= j < b + 8 ==> (u.alarms[SeqNum(j)].isSet == 1 <==> !Wanted(s, expired, j))
  }

  // ---------------------------------------------------------------- alarms

  /** An alarm is set exactly if its packet was sent. */
  lemma AlarmOf(file: seq<Byte>, s: AlignedSender, j: nat)
    requires Indexed(file, s) && Base(s) <= j < Base(s) + 16
    ensures MapToWindow(s.laSeq, SeqNum(j)) == j - Base(s)
    ensures s.alarms[SeqNum(j)].isSet != 0 <==> j < s.packetId
    ensures s.alarms[SeqNum(j)].isSet <= 2
  {
    WindowExact(Base(s), j);
  }

  lemma TimeoutsCarry(file: seq<Byte>, s: AlignedSender, expired: seq<bool>)
    requires Indexed(file, s) && |expired| == 16
    ensures Carries(s, expired, CheckTimeout(s, expired), Base(s))
    ensures forall j: nat :: Base(s) + 8 <= j < Base(s) + 16 ==> CheckTimeout(s, expired).alarms[SeqNum(j)].isSet == 0
  {
    hide Indexed;
    InFile(file, s);
    forall j: nat | Base(s) <= j < Base(s) + 16
      ensures j < Base(s) + 8 ==>
                (CheckTimeout(s, expired).alarms[SeqNum(j)].isSet == 1 <==> !Wanted(s, expired, j))
      ensures j >= Base(s) + 8 ==> CheckTimeout(s, expired).alarms[SeqNum(j)].isSet == 0
    {
      AlarmOf(file, s, j);
    }
  }

  /** Moving the base leaves the alarms above it alone. */
  lemma AdvanceCarries(file: seq<Byte>, s: AlignedSender, pos: nat, j: nat)
    requires Indexed(file, s) && Base(s) < pos <= s.packetId && pos <= j < pos + 8
    requires MapToWindow(s.laSeq, AckNum(pos)) == pos - 1 - Base(s)
    ensures Advance(s, AckNum(pos)).alarms[SeqNum(j)] == s.alarms[SeqNum(j)]
  {
    AlarmOf(file, s, j);
    hide Indexed;
  }

  lemma AckCarries(file: seq<Byte>, s: AlignedSender, pos: nat, stamp: nat, j: nat)
    requires Indexed(file, s) && Base(s) <= pos <= s.packetId && stamp > s.lastAckTime && pos < Total(file)
    requires pos <= j < pos + 8
    ensures HandleAck(s, AckNum(pos), stamp).0.alarms[SeqNum(j)] == s.alarms[SeqNum(j)]
  {
    hide Indexed, Advance, Total;
    AlignedQueue(file, s);
    AckExact(Base(s), pos);
    if pos > Base(s) {
      LastAck(file, s, pos);
      var t: AlignedSender := s.(lastAckTime := stamp);
      StampIndexed(file, s, stamp);
      AdvanceCarries(file, t, pos, j);
    }
  }

  lemma AlignedQueue(file: seq<Byte>, s: AlignedSender)
    requires Indexed(file, s)
    ensures 0 <= Base(s) < Total(file) && s.packetId <= Base(s) + WINDOW_LEN && s.laSeq == SeqNum(Base(s))
  {
  }

  lemma StampIndexed(file: seq<Byte>, s: AlignedSender, stamp: nat)
    requires Indexed(file, s)
    ensures Indexed(file, s.(lastAckTime := stamp))
  {
  }

  // ---------------------------------------------------------------- the window loop

  lemma {:induction false} DueIsToSend(file: seq<Byte>, s: AlignedSender, expired: seq<bool>, u: AlignedSender, n: nat)
    requires |expired| == 16 && Base(u) >= 0 && u.laSeq == SeqNum(Base(u)) && n <= 8
    requires Carries(s, expired, u, Base(u))
    ensures Due(file, u, n) == ToSend(file, s, expired, Base(u), n)
  {
    hide PacketOf, Wanted, Carries, DueAt;
    if n == 0 {
    } else {
      DueIsToSend(file, s, expired, u, n - 1);
      DueIsWanted(file, s, expired, u, n - 1);
    }
  }

  lemma DueIsWanted(file: seq<Byte>, s: AlignedSender, expired: seq<bool>, u: AlignedSender, w: nat)
    requires |expired| == 16 && Base(u) >= 0 && u.laSeq == SeqNum(Base(u)) && w < 8
    requires Carries(s, expired, u, Base(u))
    ensures DueAt(file, u, w) == if Wanted(s, expired, Base(u) + w) then [PacketOf(file, Base(u) + w)] else []
  {
    hide PacketOf, Wanted;
    SeqNumAdd(Base(u), w);
    assert u.alarms[SeqNum(Base(u) + w)].isSet == 1 <==> !Wanted(s, expired, Base(u) + w);
  }

  /** What a pass over the window leaves: all that was wanted is sent, and waits. */
  ghost predicate Filled(file: seq<Byte>, t: AlignedSender, b: nat, before: nat, n: nat) {
    && Indexed(file, t) && Base(t) == b && t.packetId == (if b + n > before then b + n else before)
    && forall j: nat :: b <= j < t.packetId ==> t.alarms[j % 16].isSet == 1
  }

  lemma WindowExactly(file: seq<Byte>, s: AlignedSender, expired: seq<bool>, u: AlignedSender)
    requires |expired| == 16 && Indexed(file, u) && Sized(file) && Carries(s, expired, u, Base(u))
    requires !Stalled(u)
    ensures var (t, sent), n := SendWindow(u, file), Min(8, Total(file) - Base(u));
      && sent == ToSend(file, s, expired, Base(u), n) && Filled(file, t, Base(u), u.packetId, n)
      && t.lastAckTime == u.lastAckTime
  {
    hide Indexed, PacketOf, Carries, FillTo, Total, Due, Stalled;
    AlignedQueue(file, u);
    FillExactly(file, u, u.laSeq + WINDOW_LEN);
    var n := Min(8, Total(file) - Base(u));
    assert Slots(file, u, u.laSeq + WINDOW_LEN) == n;
    DueIsToSend(file, s, expired, u, n);
    ServedIsFilled(file, u, SendWindow(u, file).0, n);
  }

  lemma ServedIsFilled(file: seq<Byte>, u: AlignedSender, t: AlignedSender, n: nat)
    requires Indexed(file, u) && Served(file, u, n, t) && n == Min(8, Total(file) - Base(u))
    ensures Filled(file, t, Base(u), u.packetId, n)
  {
    hide PacketOf;
    InFile(file, u);
    AlignedQueue(file, t);
    forall j: nat | Base(u) <= j < t.packetId
      ensures t.alarms[j % 16].isSet == 1
    {
      WindowExact(Base(u), j);
    }
  }

  // ---------------------------------------------------------------- the pass

  /** Is there an acknowledgement that is newer than the last one? */
  predicate IsNews(s: AlignedSender, ack: Option<Ack>) {
    ack.Some? && Stamp(ack.value) > s.lastAckTime
  }

  /** The base after the acknowledgement of position pos. */
  function NewBase(s: AlignedSender, ack: Option<Ack>, pos: nat): int {
    if IsNews(s, ack) then pos else Base(s)
  }

  /** What a pass that does not end the transfer sends from base b on, and leaves behind:
      unless the last packet's number has wrapped below the base, exactly the packets of the
      window that are new, timed out or over time, in order, and they wait from now on. */
  ghost predicate Passed(file: seq<Byte>, s: AlignedSender, expired: seq<bool>, b: int, t: AlignedSender,
                         sent: seq<Packet>)
    requires |expired| == 16
  {
    && 0 <= b < Total(file) && Indexed(file, t) && Base(t) == b
    && if s.lastWindow != -1 && b % 16 > s.lastWindow then sent == [] && t.packetId == s.packetId
       else
         var n := Min(8, Total(file) - b);
         sent == ToSend(file, s, expired, b, n) && Filled(file, t, b, s.packetId, n)
  }

  /** One pass, with no newer acknowledgement or one of position pos: the transfer ends exactly
      on one of the whole file; otherwise the base is at the acknowledged position, and
      the window there is served. */
  lemma PassExactly(file: seq<Byte>, s: AlignedSender, expired: seq<bool>, ack: Option<Ack>, pos: nat)
    requires Indexed(file, s) && Sized(file) && |expired| == 16
    requires IsNews(s, ack) ==> ack.value.num == (pos + 15) % 16 && Base(s) <= pos <= s.packetId
    ensures var (t, outcome, sent) := PassAck(file, s, expired, ack);
      && t.lastAckTime == (if IsNews(s, ack) then Stamp(ack.value) else s.lastAckTime)
      && outcome == (if IsNews(s, ack) && pos == Total(file) then Finished else Handled)
      && if outcome == Finished then sent == [] else Passed(file, s, expired, NewBase(s, ack, pos), t, sent)
  {
    hide Indexed, Carries, Passed, SendWindow, HandleAck, CheckTimeout, Stamp, Total, Sized;
    var c := CheckTimeout(s, expired);
    TimeoutsIndexed(file, s, expired);
    TimeoutsCarry(file, s, expired);
    TimeoutsKeep(s, expired);
    InFile(file, s);
    if IsNews(s, ack) {
      AckNumIs(pos);
      var stamp := Stamp(ack.value);
      AckMovesBase(file, c, pos, stamp);
      if pos < Total(file) {
        var u := HandleAck(c, AckNum(pos), stamp).0;
        AckAllCarry(file, s, expired, c, pos, stamp);
        SameLast(file, c, u);
        PassEnds(file, s, expired, u);
      }
    } else {
      if ack.Some? {
        StaleAck(c, ack.value.num, Stamp(ack.value));
      }
      PassEnds(file, s, expired, c);
    }
  }

  lemma SameLast(file: seq<Byte>, s: AlignedSender, u: AlignedSender)
    requires Indexed(file, s) && Indexed(file, u) && u.packetId == s.packetId
    ensures u.lastWindow == s.lastWindow
  {
  }

  lemma TimeoutsKeep(s: AlignedSender, expired: seq<bool>)
    requires |expired| == 16
    ensures var c := CheckTimeout(s, expired);
      c.lastAckTime == s.lastAckTime && c.packetId == s.packetId && Base(c) == Base(s) && c.lastWindow == s.lastWindow
  {
  }

  lemma AckNumIs(pos: nat)
    ensures AckNum(pos) == (pos + 15) % 16
  {
  }

  lemma StaleAck(s: AlignedSender, num: nat, stamp: nat)
    requires stamp <= s.lastAckTime
    ensures HandleAck(s, num, stamp) == (s, Handled)
  {
  }

  lemma AckAllCarry(file: seq<Byte>, s: AlignedSender, expired: seq<bool>, c: AlignedSender, pos: nat, stamp: nat)
    requires Indexed(file, c) && |expired| == 16 && c.packetId == s.packetId && Base(c) <= pos <= c.packetId
    requires stamp > c.lastAckTime && pos < Total(file) && Carries(s, expired, c, Base(c))
    requires forall j: nat :: Base(c) + 8 <= j < Base(c) + 16 ==> c.alarms[SeqNum(j)].isSet == 0
    ensures Carries(s, expired, HandleAck(c, AckNum(pos), stamp).0, pos)
  {
    hide Indexed, HandleAck, Total;
    AlignedQueue(file, c);
    forall j: nat | pos <= j < pos + 8
      ensures HandleAck(c, AckNum(pos), stamp).0.alarms[SeqNum(j)].isSet == 1 <==> !Wanted(s, expired, j)
    {
      AckCarries(file, c, pos, stamp, j);
    }
  }

  lemma PassEnds(file: seq<Byte>, s: AlignedSender, expired: seq<bool>, u: AlignedSender)
    requires |expired| == 16 && Indexed(file, u) && Sized(file) && Carries(s, expired, u, Base(u))
    requires u.packetId == s.packetId && u.lastWindow == s.lastWindow
    ensures var (t, sent) := SendWindow(u, file);
      t.lastAckTime == u.lastAckTime && Passed(file, s, expired, Base(u), t, sent)
  {
    hide Indexed, Carries, ToSend, SendWindow, Total, Sized;
    AlignedQueue(file, u);
    if Stalled(u) {
      StalledSendsNothing(u, file);
    } else {
      WindowExactly(file, s, expired, u);
    }
  }

  /** Without a readable acknowledgement: packet w of the window is resent exactly if its
      alarm had timed out or is over time now. */
  lemma ResentExactly(file: seq<Byte>, s: AlignedSender, expired: seq<bool>, w: nat)
    requires Indexed(file, s) && Sized(file) && |expired| == 16 && !Stalled(s) && w < |s.queue|
    ensures PacketOf(file, Base(s) + w) in Pass(file, s, expired, []).2
        <==> s.alarms[SeqNum(s.laSeq + w)].isSet == 2 || expired[SeqNum(s.laSeq + w)]
  {
    hide Indexed, Sized, Wanted, Total, PassAck, PacketOf;
    PassExactly(file, s, expired, None, 0);
    AlignedQueue(file, s);
    var n := Min(8, Total(file) - Base(s));
    QueueInWindow(file, s);
    InToSend(file, s, expired, Base(s), n, Base(s) + w);
    SeqNumAdd(Base(s), w);
    WantedSlot(s, expired, Base(s) + w);
  }

  lemma QueueInWindow(file: seq<Byte>, s: AlignedSender)
    requires Indexed(file, s)
    ensures |s.queue| <= Min(8, Total(file) - Base(s))
  {
  }

  lemma WantedSlot(s: AlignedSender, expired: seq<bool>, j: nat)
    requires |expired| == 16 && j < s.packetId
    ensures Wanted(s, expired, j) <==> s.alarms[SeqNum(j)].isSet == 2 || expired[SeqNum(j)]
  {
  }

  /** Ids tell packets apart. */
  lemma {:induction false} InToSend(file: seq<Byte>, s: AlignedSender, expired: seq<bool>, b: nat, n: nat, j: nat)
    requires |expired| == 16
    ensures PacketOf(file, j) in ToSend(file, s, expired, b, n) <==> b <= j < b + n && Wanted(s, expired, j)
  {
    hide Wanted;
    if n == 0 {
    } else {
      InToSend(file, s, expired, b, n - 1, j);
      assert PacketOf(file, j) == PacketOf(file, b + n - 1) <==> j == b + n - 1 by {
        assert PacketOf(file, j).id == j + 1 && PacketOf(file, b + n - 1).id == b + n;
      }
      hide PacketOf;
    }
  }

  /** An acknowledgement with any number and stamp, also one the receiver never made. */
  lemma AnyNumber(s: AlignedSender, num: nat, stamp: nat)
    ensures var (t, outcome), w := HandleAck(s, num, stamp), Above(s.laSeq, num);
      if stamp <= s.lastAckTime then t == s && outcome == Handled
      else if num >= 16 then t == s.(lastAckTime := stamp) && outcome == Skipped
      else if w >= 8 then t == s.(lastAckTime := stamp) && outcome == Handled
      else if num == s.lastWindow then t == s.(lastAckTime := stamp) && outcome == Finished
      else outcome == Handled && Acknowledged(s.(lastAckTime := stamp), num, t)
  {
    hide Advance, Above;
    if num < 16 {
      AboveExactly(s.laSeq, num);
      if stamp > s.lastAckTime && Above(s.laSeq, num) < 8 {
        AdvanceExactly(s.(lastAckTime := stamp), num);
      }
    }
  }

  /** The base is behind number num; the packets up to it are dropped, their alarms cleared. */
  ghost predicate Acknowledged(s: AlignedSender, num: nat, t: AlignedSender) {
    var n := Above(s.laSeq, num) + 1;
    && t.laSeq == (num + 1) % 16
    && t.lastAckTime == s.lastAckTime
    && t.lastWindow == s.lastWindow && t.packetId == s.packetId && t.filePos == s.filePos
    && t.queue == (if n <= |s.queue| then s.queue[n..] else [])
    && forall k: nat :: k < 16 ==>
         t.alarms[k] == if Above(s.laSeq, k) < n then s.alarms[k].(isSet := 0) else s.alarms[k]
  }

  lemma AdvanceExactly(s: AlignedSender, num: nat)
    requires num < 16 && MapToWindow(s.laSeq, num) < WINDOW_LEN
    ensures Acknowledged(s, num, Advance(s, num))
  {
    AboveExactly(s.laSeq, num);
    forall k: nat | k < 16
      ensures MapToWindow(s.laSeq, k) == Above(s.laSeq, k)
    {
      AboveExactly(s.laSeq, k);
    }
  }

  /** A number that is out of range skips the pass after the time-outs: nothing is sent. */
  lemma BadNumberSkips(file: seq<Byte>, s: AlignedSender, expired: seq<bool>, a: Ack)
    requires |expired| == 16 && a.num >= 16 && Stamp(a) > s.lastAckTime
    ensures PassAck(file, s, expired, Some(a)).1 == Skipped && PassAck(file, s, expired, Some(a)).2 == []
  {
    hide Stamp, Expired;
  }
}
