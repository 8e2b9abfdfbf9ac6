/** While no link dies, forwarding never loops, at any moment of any run. */
module LoopFree {
  import opened RouterTables
  import opened RouterInvariant
  import opened Advertising
  import opened Topology
  import opened Fifo
  import opened Routes
  import opened RouteSteps
  import opened PongSteps
  import opened Words

  /** What is on its way to router a, by sender. */
  ghost function Inbox(t: Topology, n: Net, a: nat): Mail
    requires Wired(t, n)
  {
    map s | s in t.nodes && Link(t, s, a) :: Pending(t, n, s, a)
  }

  /** What is on its way from s was offered by s, dearer entries first. */
  ghost predicate Queued(t: Topology, rs: Routers, s: nat, queue: seq<Entry>) {
    Falling(queue) && forall e <- queue :: Offered(t, rs, s, e)
  }

  ghost predicate Inv(t: Topology, n: Net) {
    && Wired(t, n)
    && (forall a :: a in n.routers ==> Settled(t, a, n.routers[a]) && Routed(t, n.routers, Inbox(t, n, a), a))
    && (forall s, r :: Link(t, s, r) ==> Queued(t, n.routers, s, Pending(t, n, s, r)))
  }

  // ---------------------------------------------------------------- packets arrive or get lost

  lemma QueuedTail(t: Topology, rs: Routers, s: nat, m: seq<Entry>, rest: seq<Entry>)
    requires Queued(t, rs, s, m + rest)
    ensures Queued(t, rs, s, rest)
  {
    hide Offered;
    forall e <- rest
      ensures Offered(t, rs, s, e)
    {
      assert e in m + rest;
    }
    forall i, j | 0 <= i < j < |rest| && rest[i].dest == rest[j].dest
      ensures rest[j].cost <= rest[i].cost
    {
      assert (m + rest)[|m| + i] == rest[i] && (m + rest)[|m| + j] == rest[j];
    }
  }

  lemma PopInbox(t: Topology, n: Net, s: nat, r: nat, a: nat)
    requires Configured(t) && Wired(t, n) && Waiting(n, s, r)
    ensures Wired(t, Pop(n, s, r)) && Link(t, s, r) && s in t.nodes
    ensures Inbox(t, Pop(n, s, r), a)
            == if a == r then Inbox(t, n, a)[s := Pending(t, Pop(n, s, r), s, r)] else Inbox(t, n, a)
  {
  }

  lemma RoutedLess(t: Topology, rs: Routers, inbox: Mail, a: nat, s: nat, rest: seq<Entry>)
    requires Routed(t, rs, inbox, a) && (s in inbox ==> forall x <- rest :: x in inbox[s])
    ensures s in inbox ==> Routed(t, rs, inbox[s := rest], a)
  {
  }

  lemma PopKeeps(t: Topology, n: Net, s: nat, r: nat)
    requires Configured(t) && Inv(t, n) && Waiting(n, s, r)
    ensures Inv(t, Pop(n, s, r))
  {
    hide Offered, Good, Configured, Settled, Queued, Flat, Inbox, Routed, Pending, Wired;
    PopInbox(t, n, s, r, r);
    var m, rest, n2 := Head(n, s, r), Pending(t, Pop(n, s, r), s, r), Pop(n, s, r);
    PendingPop(t, n, s, r);
    QueuedTail(t, n.routers, s, m, rest);
    InboxHolds(t, n, s, r);
    forall a | a in n.routers
      ensures Routed(t, n.routers, Inbox(t, n2, a), a)
    {
      PopInbox(t, n, s, r, a);
      if a == r {
        RoutedLess(t, n.routers, Inbox(t, n, r), r, s, rest);
      }
    }
    forall x: nat, y: nat | Link(t, x, y)
      ensures Queued(t, n.routers, x, Pending(t, n2, x, y))
    {
      if (x, y) != (s, r) {
        PopOther(t, n, s, r, x, y);
      }
    }
  }

  lemma InboxHolds(t: Topology, n: Net, s: nat, r: nat)
    requires Configured(t) && Wired(t, n) && Link(t, s, r)
    ensures s in Inbox(t, n, r) && (s, r) in n.log && (s, r) in n.taken && n.taken[(s, r)] <= |n.log[(s, r)]|
    ensures Inbox(t, n, r)[s] == Pending(t, n, s, r)
  {
  }

  lemma PopOther(t: Topology, n: Net, s: nat, r: nat, x: nat, y: nat)
    requires Wired(t, n) && Waiting(n, s, r) && Link(t, x, y) && (x, y) != (s, r)
    ensures (x, y) in n.log && (x, y) in n.taken && n.taken[(x, y)] <= |n.log[(x, y)]|
    ensures Wired(t, Pop(n, s, r)) ==> Pending(t, Pop(n, s, r), x, y) == Pending(t, n, x, y)
  {
  }

  // ---------------------------------------------------------------- packets are sent

  /** A router's new table and what it says about it. */
  ghost predicate Steps(t: Topology, n: Net, a: nat, q: Router, packets: seq<seq<Entry>>) {
    && Wired(t, n) && a in n.routers && Improves(n.routers, n.routers[a := q]) && Settled(t, a, q)
    && Routed(t, n.routers[a := q], Inbox(t, n, a), a)
    && Said(t, n.routers, n.routers[a := q], a, Flat(packets))
  }

  lemma PostGood(t: Topology, n: Net, a: nat, q: Router, packets: seq<seq<Entry>>, x: nat, d: nat, hop: nat, cost: nat)
    requires Configured(t) && Steps(t, n, a, q, packets) && x != a
    requires Wired(t, Post(t, n, a, q, packets))
    requires Good(t, n.routers, Inbox(t, n, x), x, d, hop, cost)
    ensures Good(t, n.routers[a := q], Inbox(t, Post(t, n, a, q, packets), x), x, d, hop, cost)
  {
    GoodKept(t, n.routers, n.routers[a := q], Inbox(t, n, x), x, d, hop, cost);
    PendingPost(t, n, a, q, packets, hop, x) by {
      assert Link(t, hop, x);
    }
    hide Traced, Flat, Pending, Post, Settled, Offered, Routed, Open, Wired;
    var after := Pending(t, Post(t, n, a, q, packets), hop, x);
    assert Inbox(t, Post(t, n, a, q, packets), x)[hop] == after;
    forall e <- after | e.dest == d
      ensures cost >= Weight(t, x, hop) + e.cost
    {
      if e !in Inbox(t, n, x)[hop] {
        assert e in Flat(packets);
      }
    }
  }

  lemma PostInbox(t: Topology, n: Net, a: nat, q: Router, packets: seq<seq<Entry>>)
    requires Configured(t) && Wired(t, n) && a in n.routers
    ensures Wired(t, Post(t, n, a, q, packets))
    ensures Inbox(t, Post(t, n, a, q, packets), a) == Inbox(t, n, a)
  {
    hide Post, Pending, Open, Wired;
    PostWired(t, n, a, q, packets);
    var n2 := Post(t, n, a, q, packets);
    forall s | s in t.nodes && Link(t, s, a)
      ensures Inbox(t, n2, a)[s] == Inbox(t, n, a)[s]
    {
      PendingPost(t, n, a, q, packets, s, a);
    }
  }

  lemma FallingAppend(t: Topology, rs: Routers, later: Routers, a: nat, queue: seq<Entry>, more: seq<Entry>)
    requires Queued(t, rs, a, queue) && Said(t, rs, later, a, more)
    ensures Falling(queue + more)
  {
    hide Traced, Knows, Dist;
    forall i, j | 0 <= i < j < |queue + more| && (queue + more)[i].dest == (queue + more)[j].dest
      ensures (queue + more)[j].cost <= (queue + more)[i].cost
    {
      if i < |queue| <= j {
        assert Offered(t, rs, a, queue[i]);
        assert more[j - |queue|] in more;
      }
    }
  }

  lemma PostQueued(t: Topology, n: Net, a: nat, q: Router, packets: seq<seq<Entry>>, s: nat, r: nat)
    requires Configured(t) && Steps(t, n, a, q, packets) && Link(t, s, r) && (s, r) in n.log && (s, r) in n.taken
    requires n.taken[(s, r)] <= |n.log[(s, r)]| && Queued(t, n.routers, s, Pending(t, n, s, r))
    requires Wired(t, Post(t, n, a, q, packets))
    ensures Queued(t, n.routers[a := q], s, Pending(t, Post(t, n, a, q, packets), s, r))
  {
    hide Flat, Pending, Post, Settled, Routed, Open, Wired, Offered, Improves, Link, Configured, Falling;
    PendingPost(t, n, a, q, packets, s, r);
    var queue, more, later := Pending(t, n, s, r), Flat(packets), n.routers[a := q];
    OffersKept(t, n.routers, later, s, queue, queue);
    assert queue + [] == queue;
    if s == a {
      FallingAppend(t, n.routers, later, a, queue, more);
    }
  }

  lemma PostRouted(t: Topology, n: Net, a: nat, q: Router, packets: seq<seq<Entry>>, x: nat)
    requires Configured(t) && Steps(t, n, a, q, packets) && x != a && x in n.routers
    requires Wired(t, Post(t, n, a, q, packets)) && Routed(t, n.routers, Inbox(t, n, x), x)
    ensures Routed(t, n.routers[a := q], Inbox(t, Post(t, n, a, q, packets), x), x)
  {
    hide Configured, Wired, Inbox, Good, Settled, Post, Said, Improves, Steps;
    StepsWired(t, n, a, q, packets);
    var n2, dv := Post(t, n, a, q, packets), n.routers[x].dv;
    forall d | d in dv
      ensures Good(t, n.routers[a := q], Inbox(t, n2, x), x, d, dv[d].nextHop, dv[d].cost)
    {
      PostGood(t, n, a, q, packets, x, d, dv[d].nextHop, dv[d].cost);
    }
  }

  lemma StepsWired(t: Topology, n: Net, a: nat, q: Router, packets: seq<seq<Entry>>)
    requires Steps(t, n, a, q, packets)
    ensures Wired(t, n) && a in n.routers
  {
  }

  lemma PostKeeps(t: Topology, n: Net, a: nat, q: Router, packets: seq<seq<Entry>>)
    requires Configured(t) && Inv(t, n) && Steps(t, n, a, q, packets)
    ensures Inv(t, Post(t, n, a, q, packets))
  {
    hide Configured, Inbox, Good, Settled, Queued, Pending, Routed, Said, Improves, Flat;
    PostInbox(t, n, a, q, packets);
    var n2 := Post(t, n, a, q, packets);
    assert n2.routers == n.routers[a := q];
    hide Post;
    forall x | x in n2.routers
      ensures Settled(t, x, n2.routers[x]) && Routed(t, n2.routers, Inbox(t, n2, x), x)
    {
      if x != a {
        PostRouted(t, n, a, q, packets, x);
      }
    }
    forall s: nat, r: nat | Link(t, s, r)
      ensures Queued(t, n2.routers, s, Pending(t, n2, s, r))
    {
      InboxHolds(t, n, s, r);
      PostQueued(t, n, a, q, packets, s, r);
    }
  }

  // ---------------------------------------------------------------- every event

  lemma BoxesReady(t: Topology, n: Net, a: nat)
    requires Configured(t) && Inv(t, n)
    ensures forall b :: Link(t, a, b) ==>
              b in n.routers && b in Inbox(t, n, a) && forall x <- Inbox(t, n, a)[b] :: x.dest != b
  {
    hide Settled, Routed, Pending, Falling, Traced;
    forall b | Link(t, a, b)
      ensures b in n.routers && b in Inbox(t, n, a) && forall x <- Inbox(t, n, a)[b] :: x.dest != b
    {
      assert Link(t, b, a);
      assert Queued(t, n.routers, b, Pending(t, n, b, a));
    }
  }

  lemma DeliverHears(t: Topology, n: Net, s: nat, a: nat, now: nat)
    requires Configured(t) && Compact(t) && Inv(t, n) && Enabled(t, n, Deliver(s, a, now))
    requires Wired(t, Pop(n, s, a)) && Link(t, s, a)
    ensures Hearing(t, n.routers, Inbox(t, n, a), a, s, Head(n, s, a) + Pending(t, Pop(n, s, a), s, a))
  {
    hide Settled, Routed, Pending, Falling, Offered, Configured, Compact;
    BoxesReady(t, n, a);
    InboxHolds(t, n, s, a);
    PendingPop(t, n, s, a);
  }

  /** The state after a delivery, in terms of the entries taken one by one. */
  lemma DeliverSteps(t: Topology, n: Net, s: nat, a: nat, now: nat)
    requires Configured(t) && Compact(t) && Inv(t, n) && Enabled(t, n, Deliver(s, a, now))
    ensures var (q, ads) := RecvDV(n.routers[a], t.port[(a, s)], s, Head(n, s, a), now, 0);
      && Steps(t, Pop(n, s, a), a, q, Packets(ads))
      && forall e <- Head(n, s, a) :: Heard(t, n.routers[a := q], a, s, e)
  {
    hide Settled, Routed, Pending, Falling, Offered, Configured, Compact, Inbox, Relax, Link, Improves, Said, Wired,
      Flat, Packets, Heard;
    InvWired(t, n);
    PopInbox(t, n, s, a, a);
    DeliverHears(t, n, s, a, now);
    var m, rest := Head(n, s, a), Pending(t, Pop(n, s, a), s, a);
    RelaxKeeps(t, n.routers, Inbox(t, n, a), a, s, m, rest, now);
    FlatPackets(RecvDV(n.routers[a], t.port[(a, s)], s, m, now, 0).1);
  }

  lemma InvWired(t: Topology, n: Net)
    requires Inv(t, n)
    ensures Wired(t, n)
  {
  }

  lemma PongEventSteps(t: Topology, n: Net, a: nat, b: nat, sentAt: nat, now: nat)
    requires Configured(t) && Compact(t) && Inv(t, n) && Enabled(t, n, Event.Pong(a, b, sentAt, now))
    ensures var (q, ads) := RecvPong(n.routers[a], t.port[(a, b)], b, sentAt, now);
      Steps(t, n, a, q, Packets(ads))
  {
    hide Settled, Routed, Pending, Configured, Compact, Inbox, Improves, Said, Flat, Packets, RecvPong, Queued;
    BoxesReady(t, n, a);
    PongKeeps(t, n.routers, Inbox(t, n, a), a, b, sentAt, now);
    FlatPackets(RecvPong(n.routers[a], t.port[(a, b)], b, sentAt, now).1);
  }

  /** A periodic update tells the table as it is. */
  lemma UpdateSteps(t: Topology, n: Net, a: nat)
    requires Configured(t) && Compact(t) && Inv(t, n) && a in n.routers
    ensures Steps(t, n, a, n.routers[a], [Listing(Costs(n.routers[a].dv))])
  {
    hide Settled, Routed, Pending, Configured, Compact, Inbox, Improves, Said, Flat, Listing, Queued, Told;
    var dv := n.routers[a].dv;
    var ads := Listing(Costs(dv));
    forall x <- ads
      ensures x.dest in dv && x.cost == U16(dv[x.dest].cost)
    {
      InListing(Costs(dv), x);
    }
    TellsTable(t, n.routers, Inbox(t, n, a), a, ads);
    ImprovesItself(n.routers);
    ToldIsSaid(t, n.routers, n.routers, a, ads);
    FlatPackets(ads);
    assert n.routers[a := n.routers[a]] == n.routers;
  }

  lemma NextKeeps(t: Topology, n: Net, e: Event)
    requires Configured(t) && Compact(t) && Inv(t, n) && Enabled(t, n, e)
    ensures Inv(t, Next(t, n, e)) && Improves(n.routers, Next(t, n, e).routers)
  {
    hide Inv, Configured, Compact, Settled, Routed, Said, Improves, Flat, Packets, RecvPong, RecvDV, Listing, Costs,
      Wired;
    match e
    case Pong(a, b, sentAt, now) =>
      var (q, ads) := RecvPong(n.routers[a], t.port[(a, b)], b, sentAt, now);
      PongEventSteps(t, n, a, b, sentAt, now);
      PostKeeps(t, n, a, q, Packets(ads));
    case Update(a) =>
      UpdateSteps(t, n, a);
      PostKeeps(t, n, a, n.routers[a], [Listing(Costs(n.routers[a].dv))]);
    case Deliver(s, r, now) =>
      var (q, ads) := RecvDV(n.routers[r], t.port[(r, s)], s, Head(n, s, r), now, 0);
      DeliverSteps(t, n, s, r, now);
      PopKeeps(t, n, s, r);
      PostKeeps(t, Pop(n, s, r), r, q, Packets(ads));
    case Lose(s, r) =>
      PopKeeps(t, n, s, r);
      ImprovesItself(n.routers);
  }

  lemma InitInv(t: Topology, n: Net)
    requires Configured(t) && Init(t, n)
    ensures Inv(t, n)
  {
    hide Consistent;
    forall a | a in n.routers
      ensures Settled(t, a, n.routers[a])
    {
      StartConsistent(a, t.numPorts);
    }
  }

  lemma {:induction false} RunInv(t: Topology, states: seq<Net>, events: seq<Event>, i: nat)
    requires Configured(t) && Compact(t) && Run(t, states, events) && i < |states|
    ensures Inv(t, states[i])
  {
    hide Inv, Next, Enabled, Init, Configured, Compact;
    if i == 0 {
      InitInv(t, states[0]);
    } else {
      RunInv(t, states, events, i - 1);
      NextKeeps(t, states[i - 1], events[i - 1]);
    }
  }

  // ---------------------------------------------------------------- forwarding

  /** Data for d leaves router x on the port to its neighbour y, the next hop in its table. */
  ghost predicate Forwards(t: Topology, n: Net, x: nat, d: nat, y: nat) {
    && x in n.routers && d in n.routers[x].forwarding && n.routers[x].forwarding[d] == y && y in n.routers[x].neighbors
    && Link(t, x, y) && (x, y) in t.port && RecvData(n.routers[x], d) == Out(t.port[(x, y)])
  }

  /** w is the way data for d takes. */
  ghost predicate IsPath(t: Topology, n: Net, w: seq<nat>, d: nat) {
    IsWalk(t, w) && forall k :: 0 <= k < |w| - 1 ==> Forwards(t, n, w[k], d, w[k + 1])
  }

  /** Along the next hop the cost falls by at least the link's round-trip time. */
  lemma NextHopIsNearer(t: Topology, n: Net, x: nat, d: nat)
    requires Configured(t) && Inv(t, n) && x in n.routers && d in n.routers[x].dv
    ensures var y := n.routers[x].dv[d].nextHop;
      && Forwards(t, n, x, d, y) && Knows(n.routers, y, d)
      && Dist(n.routers, x, d) >= Weight(t, x, y) + Dist(n.routers, y, d)
  {
    var r := n.routers[x];
    hide Traced, Configured, Inbox, Measured, Queued, Wired;
    assert Good(t, n.routers, Inbox(t, n, x), x, d, r.dv[d].nextHop, r.dv[d].cost);
    assert RouteBacked(r, d);
    assert Near(t, x, r, r.dv[d].nextHop);
    RecvDataFollowsTable(r, d);
  }

  ghost predicate Below(rs: Routers, w: seq<nat>, d: nat, c: int) {
    forall k :: 0 <= k < |w| ==> Knows(rs, w[k], d) && Dist(rs, w[k], d) <= c
  }

  lemma {:induction false} PathFrom(t: Topology, n: Net, x: nat, d: nat) returns (w: seq<nat>)
    requires Configured(t) && Inv(t, n) && Knows(n.routers, x, d)
    ensures Joins(t, w, x, d) && IsPath(t, n, w, d) && NoRepeats(w)
    ensures WalkCost(t, w) <= Dist(n.routers, x, d) && Below(n.routers, w, d, Dist(n.routers, x, d))
    decreases Dist(n.routers, x, d)
  {
    hide Configured, Inv, Forwards;
    if x == d {
      w := [x];
    } else {
      NextHopIsNearer(t, n, x, d);
      var y := n.routers[x].dv[d].nextHop;
      ForwardsLinks(t, n, x, d, y);
      LinkWeight(t, x, y);
      var v := PathFrom(t, n, y, d);
      PrependCost(t, x, v);
      w := [x] + v;
      assert forall k :: 0 < k < |w| ==> w[k] == v[k - 1];
    }
  }

  lemma ForwardsLinks(t: Topology, n: Net, x: nat, d: nat, y: nat)
    requires Forwards(t, n, x, d, y)
    ensures Link(t, x, y)
  {
  }

  lemma LinkWeight(t: Topology, x: nat, y: nat)
    requires Configured(t) && Link(t, x, y)
    ensures Weight(t, x, y) > 0 && x != y
  {
  }

  /** At every moment of every run the cost strictly falls along next hops: it is at least
      the link's round-trip time plus the next hop's own cost. */
  lemma CostsFallAlongHops(t: Topology, states: seq<Net>, events: seq<Event>, i: nat, x: nat, d: nat)
    requires Configured(t) && Compact(t) && Run(t, states, events) && i < |states|
    requires x in states[i].routers && d in states[i].routers[x].dv
    ensures var rs, y := states[i].routers, states[i].routers[x].dv[d].nextHop;
      Link(t, x, y) && Knows(rs, y, d) && rs[x].dv[d].cost >= Weight(t, x, y) + Dist(rs, y, d) && Weight(t, x, y) > 0
  {
    hide Configured, Compact, Run, Inv, Forwards, Weight, Link;
    RunInv(t, states, events, i);
    NextHopIsNearer(t, states[i], x, d);
    ForwardsLinks(t, states[i], x, d, states[i].routers[x].dv[d].nextHop);
    LinkWeight(t, x, states[i].routers[x].dv[d].nextHop);
    SettledAt(t, states[i], x);
  }

  /** At every moment of every run, forwarding from any router that knows d leads to d,
      visits no router twice, and costs no more than that router's table says. */
  lemma ForwardingReaches(t: Topology, states: seq<Net>, events: seq<Event>, i: nat, x: nat,
          d: nat) returns (w: seq<nat>)
    requires Configured(t) && Compact(t) && Run(t, states, events) && i < |states|
    requires x in states[i].routers && d in states[i].routers[x].dv
    ensures Joins(t, w, x, d) && IsPath(t, states[i], w, d) && NoRepeats(w)
    ensures WalkCost(t, w) <= states[i].routers[x].dv[d].cost
  {
    RunInv(t, states, events, i);
    NextHopIsNearer(t, states[i], x, d);
    hide Inv, Run, Configured, IsPath, NoRepeats;
    SettledAt(t, states[i], x);
    w := PathFrom(t, states[i], x, d);
  }

  lemma SettledAt(t: Topology, n: Net, x: nat)
    requires Inv(t, n) && x in n.routers
    ensures Settled(t, x, n.routers[x]) && x !in n.routers[x].dv
  {
  }
}
