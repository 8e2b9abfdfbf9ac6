/** Exact costs are within reach: while no link dies, every run can go on until every link
    is measured, and from there through as many rounds as exact costs need. */
module RoundRuns {
  import opened RouterTables
  import opened Topology
  import opened Fifo
  import opened Routes
  import opened LoopFree
  import opened Convergence
  import opened Words

  /** A continuation of a run in which nothing more is lost. */
  ghost predicate Prolongs(t: Topology, states: seq<Net>, events: seq<Event>, more: seq<Net>, rest: seq<Event>) {
    && Run(t, more, rest) && |more| == |rest| + 1 && states <= more && events <= rest
    && forall k :: |events| <= k < |rest| ==> !rest[k].Lose?
  }

  ghost predicate IsRun(t: Topology, states: seq<Net>, events: seq<Event>) {
    Run(t, states, events) && |states| == |events| + 1
  }

  lemma RunExtends(t: Topology, states: seq<Net>, events: seq<Event>, e: Event)
    requires IsRun(t, states, events) && Enabled(t, states[|events|], e) && !e.Lose?
    ensures Prolongs(t, states, events, states + [Next(t, states[|events|], e)], events + [e])
  {
    hide Enabled, Next, Init;
    var z := Next(t, states[|events|], e);
    var s, es := states + [z], events + [e];
    forall i | 0 <= i < |es|
      ensures Enabled(t, s[i], es[i]) && s[i + 1] == Next(t, s[i], es[i])
    {
      if i < |events| {
        assert s[i] == states[i] && s[i + 1] == states[i + 1] && es[i] == events[i];
      }
    }
  }

  lemma ProlongsOn(t: Topology, x: seq<Net>, ex: seq<Event>, y: seq<Net>, ey: seq<Event>, z: seq<Net>, ez: seq<Event>)
    requires Prolongs(t, x, ex, y, ey) && Prolongs(t, y, ey, z, ez)
    ensures Prolongs(t, x, ex, z, ez)
  {
    hide Run;
  }

  /** The last state of a run keeps the invariant. */
  lemma LastInv(t: Topology, states: seq<Net>, events: seq<Event>)
    requires Configured(t) && Compact(t) && IsRun(t, states, events)
    ensures Inv(t, states[|events|])
  {
    hide Run, Inv, Configured, Compact;
    RunInv(t, states, events, |events|);
  }

  /** Across a continuation things only grow. */
  lemma ProlongsGrows(t: Topology, states: seq<Net>, events: seq<Event>, more: seq<Net>, rest: seq<Event>)
    requires Configured(t) && Compact(t) && IsRun(t, states, events) && Prolongs(t, states, events, more, rest)
    ensures Grows(states[|events|], more[|rest|])
  {
    hide Run, Grows, Configured, Compact;
    assert states[|events|] == more[|events|];
    RunGrows(t, more, rest, |events|, |rest|);
  }

  // ---------------------------------------------------------------- measuring every link

  ghost predicate Met(t: Topology, n: Net, l: (nat, nat)) {
    l.0 in n.routers && l.1 in n.routers[l.0].neighbors
  }

  lemma CanPong(t: Topology, n: Net, a: nat, b: nat)
    requires Configured(t) && Inv(t, n) && Link(t, a, b)
    ensures Enabled(t, n, Pong(a, b, 0, Weight(t, a, b)))
    ensures Met(t, Next(t, n, Pong(a, b, 0, Weight(t, a, b))), (a, b))
  {
    hide Routed, Queued, Pending, Inbox, Consistent, Near;
    LinkBack(t, a, b);
    assert Measured(t, a, n.routers[a], b);
    hide Configured, Listing, Costs, PongTable, PongPorts, PongNews, NextHops, U32, Measured;
    var q := RecvPong(n.routers[a], t.port[(a, b)], b, 0, Weight(t, a, b));
    PostRouters(t, n, a, q.0, Packets(q.1));
    hide Post;
  }

  lemma {:induction false} MeasureLinks(t: Topology, states: seq<Net>, events: seq<Event>, todo: set<(nat, nat)>)
    returns (more: seq<Net>, rest: seq<Event>)
    requires Configured(t) && Compact(t) && IsRun(t, states, events) && todo <= t.weight.Keys
    ensures Prolongs(t, states, events, more, rest) && forall l <- todo :: Met(t, more[|rest|], l)
    decreases |todo|
  {
    hide Run, Inv, Configured, Compact, Grows, Next, Enabled, Met;
    if todo == {} {
      more, rest := states, events;
    } else {
      var l :| l in todo;
      var (a, b) := l;
      LastInv(t, states, events);
      CanPong(t, states[|events|], a, b);
      var e := Event.Pong(a, b, 0, Weight(t, a, b));
      RunExtends(t, states, events, e);
      var s1, e1 := states + [Next(t, states[|events|], e)], events + [e];
      more, rest := MeasureLinks(t, s1, e1, todo - {l});
      ProlongsOn(t, states, events, s1, e1, more, rest);
      ProlongsGrows(t, s1, e1, more, rest);
      MetLater(t, s1[|e1|], more[|rest|], l);
    }
  }

  lemma MetLater(t: Topology, n: Net, n2: Net, l: (nat, nat))
    requires Met(t, n, l) && Grows(n, n2)
    ensures Met(t, n2, l)
  {
    hide Improves;
  }

  /** Every run can go on until every link is measured. */
  lemma CanAcquaint(t: Topology, states: seq<Net>, events: seq<Event>) returns (more: seq<Net>, rest: seq<Event>)
    requires Configured(t) && Compact(t) && IsRun(t, states, events)
    ensures Prolongs(t, states, events, more, rest) && Acquainted(t, more[|rest|])
  {
    hide Run, Configured, Compact;
    more, rest := MeasureLinks(t, states, events, t.weight.Keys);
    forall a, b | Link(t, a, b)
      ensures a in more[|rest|].routers && b in more[|rest|].routers[a].neighbors
    {
      assert Met(t, more[|rest|], (a, b));
    }
  }

  // ---------------------------------------------------------------- one exchange

  lemma CanDeliver(t: Topology, n: Net, s: nat, r: nat)
    requires Configured(t) && Inv(t, n) && Acquainted(t, n) && Link(t, s, r) && Waiting(n, s, r)
    ensures Enabled(t, n, Deliver(s, r, 0))
    ensures var z := Next(t, n, Deliver(s, r, 0)); (s, r) in z.taken && z.taken[(s, r)] == n.taken[(s, r)] + 1
  {
    hide Inv, RecvDV;
    LinkBack(t, s, r);
    assert Link(t, r, s);
  }

  lemma CanUpdate(t: Topology, n: Net, s: nat)
    requires s in n.routers
    ensures Enabled(t, n, Update(s)) && Next(t, n, Update(s)).taken == n.taken
  {
    hide Listing, Costs;
  }

  /** Delivery after delivery, until packet number k of a link has arrived. */
  lemma {:induction false} DrainTo(t: Topology, states: seq<Net>, events: seq<Event>, s: nat, r: nat, k: nat)
    returns (more: seq<Net>, rest: seq<Event>)
    requires Configured(t) && Compact(t) && IsRun(t, states, events) && Acquainted(t, states[|events|]) && Link(t, s, r)
    requires var n := states[|events|]; (s, r) in n.log && (s, r) in n.taken && n.taken[(s, r)] <= k < |n.log[(s, r)]|
    ensures Prolongs(t, states, events, more, rest) && Acquainted(t, more[|rest|])
    ensures |events| < |rest| && rest[|rest| - 1] == Deliver(s, r, 0)
    ensures (s, r) in more[|rest| - 1].taken && more[|rest| - 1].taken[(s, r)] == k
    decreases k - states[|events|].taken[(s, r)]
  {
    hide Run, Inv, Configured, Compact, Grows, Next, Enabled, Acquainted, Link;
    var n, e := states[|events|], Deliver(s, r, 0);
    LastInv(t, states, events);
    CanDeliver(t, n, s, r);
    RunExtends(t, states, events, e);
    var s1, e1 := states + [Next(t, n, e)], events + [e];
    ProlongsGrows(t, states, events, s1, e1);
    AcquaintedLater(t, n, s1[|e1|]);
    if n.taken[(s, r)] == k {
      more, rest := s1, e1;
    } else {
      LogLater(n, s1[|e1|], (s, r));
      more, rest := DrainTo(t, s1, e1, s, r, k);
      ProlongsOn(t, states, events, s1, e1, more, rest);
    }
  }

  lemma LogLater(n: Net, n2: Net, l: (nat, nat))
    requires Grows(n, n2) && l in n.log
    ensures l in n2.log && |n.log[l]| <= |n2.log[l]|
  {
    hide Improves;
  }

  /** One router sends its table to a neighbour, and that packet arrives. */
  lemma CanExchange(t: Topology, states: seq<Net>, events: seq<Event>, s: nat, r: nat)
    returns (more: seq<Net>, rest: seq<Event>)
    requires Configured(t) && Compact(t) && IsRun(t, states, events) && Acquainted(t, states[|events|]) && Link(t, s, r)
    ensures Prolongs(t, states, events, more, rest) && Acquainted(t, more[|rest|])
    ensures Exchanges(more, rest, |events|, |rest|, s, r)
  {
    hide Run, Inv, Configured, Compact, Grows, Next, Enabled, Acquainted, Link, Listing, Costs;
    var n, u := states[|events|], |events|;
    LastInv(t, states, events);
    InvNodes(t, n);
    LinkBack(t, s, r);
    CanUpdate(t, n, s);
    UpdateLogs(t, n, s, r);
    RunExtends(t, states, events, Update(s));
    var s1, e1 := states + [Next(t, n, Update(s))], events + [Update(s)];
    ProlongsGrows(t, states, events, s1, e1);
    AcquaintedLater(t, n, s1[|e1|]);
    TakenSoFar(t, n, s, r);
    more, rest := DrainTo(t, s1, e1, s, r, |n.log[(s, r)]|);
    ProlongsOn(t, states, events, s1, e1, more, rest);
    assert more[u] == n && rest[u] == Update(s);
    assert Exchange(more, rest, u, |rest| - 1, s, r);
  }

  lemma TakenSoFar(t: Topology, n: Net, s: nat, r: nat)
    requires Inv(t, n) && Link(t, s, r)
    ensures (s, r) in n.log && (s, r) in n.taken && n.taken[(s, r)] <= |n.log[(s, r)]|
  {
    InvWired(t, n);
    hide Inv;
  }

  // ---------------------------------------------------------------- rounds

  lemma ExchangesLater(states: seq<Net>, events: seq<Event>, more: seq<Net>, rest: seq<Event>, i: nat, s: nat, r: nat)
    requires states <= more && events <= rest && |more| == |rest| + 1 && |states| == |events| + 1
    requires Exchanges(states, events, i, |events|, s, r)
    ensures Exchanges(more, rest, i, |rest|, s, r)
  {
    var u: nat, v: nat :| i <= u && v < |events| && Exchange(states, events, u, v, s, r);
    assert Exchange(more, rest, u, v, s, r);
  }

  lemma ExchangesFrom(states: seq<Net>, events: seq<Event>, i: nat, k: nat, j: nat, s: nat, r: nat)
    requires Exchanges(states, events, k, j, s, r) && i <= k
    ensures Exchanges(states, events, i, j, s, r)
  {
    var u: nat, v: nat :| k <= u && v < j && Exchange(states, events, u, v, s, r);
  }

  lemma {:induction false} ExchangeLinks(t: Topology, states: seq<Net>, events: seq<Event>, todo: set<(nat, nat)>)
    returns (more: seq<Net>, rest: seq<Event>)
    requires Configured(t) && Compact(t) && IsRun(t, states, events) && Acquainted(t, states[|events|])
    requires todo <= t.weight.Keys
    ensures Prolongs(t, states, events, more, rest) && Acquainted(t, more[|rest|])
    ensures forall l <- todo :: Exchanges(more, rest, |events|, |rest|, l.0, l.1)
    decreases |todo|
  {
    hide Run, Configured, Compact, Acquainted, Exchanges;
    if todo == {} {
      more, rest := states, events;
    } else {
      var l :| l in todo;
      var s1, e1 := CanExchange(t, states, events, l.0, l.1);
      more, rest := ExchangeLinks(t, s1, e1, todo - {l});
      ProlongsOn(t, states, events, s1, e1, more, rest);
      forall m <- todo
        ensures Exchanges(more, rest, |events|, |rest|, m.0, m.1)
      {
        if m == l {
          ExchangesLater(s1, e1, more, rest, |events|, l.0, l.1);
        } else {
          ExchangesFrom(more, rest, |events|, |e1|, |rest|, m.0, m.1);
        }
      }
    }
  }

  /** From every state in which every link is measured a continuation performs a round. */
  lemma CanRound(t: Topology, states: seq<Net>, events: seq<Event>) returns (more: seq<Net>, rest: seq<Event>)
    requires Configured(t) && Compact(t) && IsRun(t, states, events) && Acquainted(t, states[|events|])
    ensures Prolongs(t, states, events, more, rest) && Acquainted(t, more[|rest|])
    ensures Round(t, more, rest, |events|, |rest|)
  {
    hide Run, Configured, Compact, Acquainted, Exchanges;
    more, rest := ExchangeLinks(t, states, events, t.weight.Keys);
    forall s: nat, r: nat | Link(t, s, r)
      ensures Exchanges(more, rest, |events|, |rest|, s, r)
    {
      assert (s, r) in t.weight.Keys;
    }
  }

  /** Rounds that happened stay rounds of every continuation. */
  lemma RoundsLater(t: Topology, states: seq<Net>, events: seq<Event>, more: seq<Net>, rest: seq<Event>,
                    marks: seq<nat>)
    requires states <= more && events <= rest && |more| == |rest| + 1 && |states| == |events| + 1
    requires Rounds(t, states, events, marks)
    ensures Rounds(t, more, rest, marks)
  {
    hide Acquainted, Exchange;
    forall k | 0 <= k < |marks| - 1
      ensures Round(t, more, rest, marks[k], marks[k + 1])
    {
      assert Round(t, states, events, marks[k], marks[k + 1]);
      forall s, r | Link(t, s, r)
        ensures Exchanges(more, rest, marks[k], marks[k + 1], s, r)
      {
        ExchangesWithin(states, events, more, rest, marks[k], marks[k + 1], s, r);
      }
    }
  }

  lemma ExchangesWithin(states: seq<Net>, events: seq<Event>, more: seq<Net>, rest: seq<Event>, i: nat, j: nat,
                        s: nat, r: nat)
    requires states <= more && events <= rest && |more| == |rest| + 1 && Exchanges(states, events, i, j, s, r)
    ensures Exchanges(more, rest, i, j, s, r)
  {
    var u: nat, v: nat :| i <= u && v < j && Exchange(states, events, u, v, s, r);
    assert Exchange(more, rest, u, v, s, r);
  }

  /** Any number of rounds. */
  lemma {:induction false} CanRounds(t: Topology, states: seq<Net>, events: seq<Event>, k: nat)
    returns (more: seq<Net>, rest: seq<Event>, marks: seq<nat>)
    requires Configured(t) && Compact(t) && IsRun(t, states, events) && Acquainted(t, states[|events|])
    ensures Prolongs(t, states, events, more, rest) && Acquainted(t, more[|rest|])
    ensures |marks| == k + 1 && marks[k] == |rest| && Rounds(t, more, rest, marks)
  {
    hide Run, Configured, Compact, Acquainted, Exchanges;
    if k == 0 {
      more, rest, marks := states, events, [|events|];
    } else {
      var s1, e1, m1 := CanRounds(t, states, events, k - 1);
      more, rest := CanRound(t, s1, e1);
      ProlongsOn(t, states, events, s1, e1, more, rest);
      RoundsLater(t, s1, e1, more, rest, m1);
      marks := m1 + [|rest|];
      assert more[marks[0]] == s1[m1[0]];
    }
  }

  /** Every router knows exactly the routers that can be reached, at exactly their distance. */
  ghost predicate Exact(t: Topology, n: Net) {
    forall a, d :: a in n.routers && a != d ==> ExactAt(t, n, a, d)
  }

  ghost predicate ExactAt(t: Topology, n: Net, a: nat, d: nat)
    requires a in n.routers
  {
    && (d in n.routers[a].dv <==> exists w :: Joins(t, w, a, d))
    && (d in n.routers[a].dv ==> IsDistance(t, a, d, n.routers[a].dv[d].cost))
  }

  /** Every run, whatever was lost in it, can go on without loss until all costs are exact. */
  lemma ExactIsReachable(t: Topology, states: seq<Net>, events: seq<Event>) returns (more: seq<Net>, rest: seq<Event>)
    requires Configured(t) && Compact(t) && IsRun(t, states, events)
    ensures Prolongs(t, states, events, more, rest) && Exact(t, more[|rest|]) && Acquainted(t, more[|rest|])
  {
    hide Run, Configured, Compact, Acquainted, Rounds, Joins, IsDistance;
    var s1, e1 := CanAcquaint(t, states, events);
    var k := |t.nodes|;
    var marks;
    more, rest, marks := CanRounds(t, s1, e1, k);
    ProlongsOn(t, states, events, s1, e1, more, rest);
    var n := more[|rest|];
    forall a, d | a in n.routers && a != d
      ensures ExactAt(t, n, a, d)
    {
      ReachableIsKnown(t, more, rest, marks, |rest|, a, d);
      if d in n.routers[a].dv {
        CostsAreExact(t, more, rest, marks, |rest|, a, d);
      }
    }
  }
}
