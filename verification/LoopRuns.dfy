/** Runs into forwarding loops: only a vector can make one, and for every router between
    two others there is a run, at times the routers can keep, in which its route to one of
    them expires, comes back from the other and grows dearer with every update. */
module LoopRuns {
  import opened Counting
  import opened ForwardingLoops
  import opened RouterTables
  import opened RouterInvariant
  import opened Soundness
  import opened StaleRoutes
  import opened Topology
  import opened Words

  // ---------------------------------------------------------------- only vectors make loops

  /** An event makes a loop exactly if it delivers a vector that leaves a route through its
      sender, whose own data for that destination comes to the receiver. */
  lemma OnlyVectorsLoop(t: Topology, states: seq<Network>, events: seq<Event>, i: nat, d: nat)
    requires Configured(t) && Modest(t) && Run(t, states, events) && i < |events|
    requires LoopFreeFor(states[i].routers, d)
    ensures events[i].Deliver? ==> events[i].m.to in states[i + 1].routers
    ensures var e, rs := events[i], states[i].routers;
      !LoopFreeFor(states[i + 1].routers, d)
      <==> e.Deliver? && SendsTo(states[i + 1].routers[e.m.to], d, e.m.from) && Returns(rs, e.m.from, d, e.m.to)
  {
    hide Configured, Modest, Sound, LoopFreeFor, Returns, SendsTo, Consistent, Advertises, EmitSome, Listing,
      RecvPong, RecvDV, Refresh, Met, Init;
    RunSound(t, states, events, i);
    var n, e := states[i], events[i];
    SoundNamed(t, n);
    match e
    case Pong(a, b, sentAt, now) => PongKeepsLoopFree(n.routers, a, d, t.port[(a, b)], b, sentAt, now);
    case Deliver(m, now, junk) =>
      VectorLoops(n.routers, m.to, d, t.port[(m.to, m.from)], m.from, m.entries, now, junk);
    case Update(a) =>
    case Expire(a, now, ads) => RefreshKeepsLoopFree(n.routers, a, d, now);
  }

  lemma SoundNamed(t: Topology, n: Network)
    requires Sound(t, n)
    ensures Named(n.routers) && forall a :: a in n.routers ==> Consistent(n.routers[a])
  {
    hide Consistent, SoundTable, SoundNeighbors, SoundPorts;
  }

  // ---------------------------------------------------------------- time

  const PING_PERIOD: nat := 10000
  const CHECK_PERIOD: nat := 1000

  /** Pings leave and ports are checked when the alarms ring. */
  predicate OnAlarm(e: Event) {
    (e.Pong? ==> e.sentAt % PING_PERIOD == 0) && (e.Expire? ==> e.now % CHECK_PERIOD == 0)
  }

  /** No connected port was silent for longer than the limit when it was last checked. */
  ghost predicate Prompt(n: Network, e: Event) {
    e.Expire? && e.at in n.routers ==>
      forall p :: p in n.routers[e.at].ports && n.routers[e.at].ports[p].connected ==>
        e.now <= n.routers[e.at].ports[p].updated + PORT_LIMIT + CHECK_PERIOD
  }

  /** The routers share one clock, which never goes back and has not passed now. Periodic
      updates carry no time. */
  ghost predicate Timely(states: seq<Network>, events: seq<Event>, now: nat)
    requires |states| == |events| + 1
  {
    && (forall i :: 0 <= i < |events| ==> OnAlarm(events[i]) && Prompt(states[i], events[i]))
    && (forall i :: 0 <= i < |events| && !events[i].Update? ==> events[i].now <= now)
    && (forall i, j :: 0 <= i < j < |events| && !events[i].Update? && !events[j].Update? ==>
          events[i].now <= events[j].now)
  }

  /** A run at times that the routers can keep. */
  ghost predicate RealRun(t: Topology, states: seq<Network>, events: seq<Event>, now: nat) {
    |states| == |events| + 1 && Run(t, states, events) && Timely(states, events, now)
  }

  lemma RunExtends(t: Topology, states: seq<Network>, events: seq<Event>, e: Event)
    requires Run(t, states, events) && Enabled(t, states[|events|], e)
    ensures Run(t, states + [Next(t, states[|events|], e)], events + [e])
  {
    hide Enabled, Next, Init;
    var z := Next(t, states[|events|], e);
    var s, es := states + [z], events + [e];
    forall i | 0 <= i < |es|
      ensures Enabled(t, s[i], es[i]) && s[i + 1] == Next(t, s[i], es[i])
    {
      if i < |events| {
        assert s[i] == states[i] && s[i + 1] == states[i + 1] && es[i] == events[i];
      }
    }
  }

  lemma TimelyExtends(states: seq<Network>, events: seq<Event>, now: nat, z: Network, e: Event, later: nat)
    requires |states| == |events| + 1 && Timely(states, events, now) && now <= later
    requires OnAlarm(e) && Prompt(states[|events|], e) && (e.Update? || e.now == later)
    ensures Timely(states + [z], events + [e], later)
  {
    hide OnAlarm, Prompt;
  }

  lemma RealRunExtends(t: Topology, states: seq<Network>, events: seq<Event>, now: nat, e: Event, later: nat)
    requires RealRun(t, states, events, now) && now <= later && Enabled(t, states[|events|], e)
    requires OnAlarm(e) && Prompt(states[|events|], e) && (e.Update? || e.now == later)
    ensures RealRun(t, states + [Next(t, states[|events|], e)], events + [e], later)
  {
    hide Enabled, Next, Run, Timely, OnAlarm, Prompt;
    RunExtends(t, states, events, e);
    TimelyExtends(states, events, now, Next(t, states[|events|], e), e, later);
  }

  // ---------------------------------------------------------------- what events do

  /** A pong changes one table and keeps what is in flight. */
  lemma PongStep(t: Topology, n: Network, a: nat, b: nat, sentAt: nat, now: nat)
    requires Enabled(t, n, Event.Pong(a, b, sentAt, now))
    ensures Next(t, n, Event.Pong(a, b, sentAt, now)).routers
         == n.routers[a := RecvPong(n.routers[a], t.port[(a, b)], b, sentAt, now).0]
  {
    hide RecvPong, EmitSome;
  }

  /** A periodic update is in flight to every router behind a connected port. */
  lemma UpdateStep(t: Topology, n: Network, a: nat, b: nat)
    requires Configured(t) && a in n.routers && Link(t, a, b) && Open(t, a, b, n.routers[a].ports)
    ensures var z := Next(t, n, Update(a));
      z.routers == n.routers && Message(a, b, Listing(Costs(n.routers[a].dv))) in z.flight && n.flight <= z.flight
  {
    LinkPort(t, a, b);
    hide Listing, Costs, Open, Configured, Link;
  }

  /** What a packet makes known is in flight to every router behind a connected port. */
  lemma DeliverStep(t: Topology, n: Network, m: Message, now: nat)
    requires Configured(t) && Enabled(t, n, Deliver(m, now, 0)) && Link(t, m.to, m.from)
    ensures var z, (q, ads) := Next(t, n, Deliver(m, now, 0)),
                               RecvDV(n.routers[m.to], t.port[(m.to, m.from)], m.from, m.entries, now, 0);
      && z.routers == n.routers[m.to := q] && n.flight <= z.flight
      && (ads != [] && Open(t, m.to, m.from, q.ports) ==> Message(m.to, m.from, ads) in z.flight)
  {
    LinkPort(t, m.to, m.from);
    hide RecvDV, Met, Open, Configured, Link;
  }

  lemma ExpireStep(t: Topology, n: Network, a: nat, now: nat, ads: seq<Entry>)
    requires Enabled(t, n, Expire(a, now, ads))
    ensures var z := Next(t, n, Expire(a, now, ads));
      z.routers == n.routers[a := Refresh(n.routers[a], now)] && n.flight <= z.flight
  {
    hide Refresh, EmitSome, Advertises;
  }

  lemma CanExpire(t: Topology, n: Network, a: nat, now: nat, ads: seq<Entry>)
    requires a in n.routers && Advertises(ads, n.routers[a], now)
    ensures Enabled(t, n, Expire(a, now, ads))
  {
  }

  lemma CanUpdate(t: Topology, n: Network, a: nat)
    requires a in n.routers
    ensures Enabled(t, n, Update(a)) && OnAlarm(Update(a)) && Prompt(n, Update(a))
  {
  }

  /** A packet from a known neighbour can be delivered while the sums stay finite. */
  lemma CanDeliver(t: Topology, n: Network, m: Message, now: nat)
    requires Configured(t) && m in n.flight && m.to in n.routers && Link(t, m.to, m.from)
    requires m.from in n.routers[m.to].neighbors
    requires forall x <- m.entries :: x.cost + n.routers[m.to].neighbors[m.from].cost < INFINITY_COST
    ensures Enabled(t, n, Deliver(m, now, 0)) && OnAlarm(Deliver(m, now, 0)) && Prompt(n, Deliver(m, now, 0))
  {
    LinkPort(t, m.to, m.from);
    hide Configured, Link;
  }

  lemma LinkPort(t: Topology, a: nat, b: nat)
    requires Configured(t) && Link(t, a, b)
    ensures (a, b) in t.port && t.port[(a, b)] < t.numPorts && a != b && a in t.nodes && b in t.nodes
    ensures Link(t, b, a) && Weight(t, b, a) == Weight(t, a, b)
  {
  }

  // ---------------------------------------------------------------- the measurements

  /** The first pong of an unknown source. */
  lemma FirstPong(r: Router, port: nat, source: nat, sentAt: nat, now: nat)
    requires port in r.ports && source !in r.dv && 0 <= now - sentAt < 0x1_0000_0000
    requires forall x :: x in r.dv ==> r.dv[x].nextHop != source
    ensures var q := RecvPong(r, port, source, sentAt, now).0;
      && q.dv == r.dv[source := Cell(source, now - sentAt, now)]
      && q.neighbors == r.neighbors[source := Neighbor(now - sentAt, port)]
      && q.ports == PongPorts(r.ports, port, source, now - sentAt, now)
      && q.id == r.id && q.numPorts == r.numPorts
  {
    hide Listing, PongNews, PongPorts, NextHops, Costs;
  }

  /** Three routers in a row, with costs that add up below infinity. */
  ghost predicate Row(t: Topology, a: nat, d: nat, b: nat) {
    && Configured(t) && Link(t, a, d) && Link(t, a, b) && b != d
    && Weight(t, a, d) + 3 * Weight(t, a, b) < INFINITY_COST
  }

  lemma RowFacts(t: Topology, a: nat, d: nat, b: nat)
    requires Row(t, a, d, b)
    ensures Configured(t) && Link(t, a, d) && Link(t, a, b) && Link(t, b, a) && b != d && a != b && a != d
    ensures a in t.nodes && b in t.nodes && Weight(t, b, a) == Weight(t, a, b)
    ensures Weight(t, a, d) + 3 * Weight(t, a, b) < INFINITY_COST
    ensures (a, d) in t.port && (a, b) in t.port && (b, a) in t.port
  {
    LinkPort(t, a, d);
    LinkPort(t, a, b);
    LinkPort(t, b, a);
    hide Configured;
  }

  /** The router between d and b, after it measured d at time t1 and b at time t2. */
  ghost predicate Between2(t: Topology, r: Router, a: nat, d: nat, b: nat, t1: nat, t2: nat) {
    && Consistent(r) && r.id == a && r.numPorts == t.numPorts
    && Link(t, a, d) && Link(t, a, b) && (a, d) in t.port && (a, b) in t.port
    && r.dv == map[d := Cell(d, Weight(t, a, d), t1), b := Cell(b, Weight(t, a, b), t2)]
    && r.neighbors == map[d := Neighbor(Weight(t, a, d), t.port[(a, d)]),
                          b := Neighbor(Weight(t, a, b), t.port[(a, b)])]
    && t.port[(a, d)] in r.ports && t.port[(a, b)] in r.ports
    && r.ports[t.port[(a, d)]] == Port(d, Weight(t, a, d), t1, true)
    && r.ports[t.port[(a, b)]] == Port(b, Weight(t, a, b), t2, true)
    && forall p :: p in r.ports && p != t.port[(a, d)] && p != t.port[(a, b)] ==> !r.ports[p].connected
  }

  /** Router a, after it measured its first neighbour d at time t1. */
  ghost predicate Single(t: Topology, r: Router, a: nat, d: nat, t1: nat) {
    && Consistent(r) && r.id == a && r.numPorts == t.numPorts && Link(t, a, d) && (a, d) in t.port
    && r.dv == map[d := Cell(d, Weight(t, a, d), t1)]
    && r.neighbors == map[d := Neighbor(Weight(t, a, d), t.port[(a, d)])]
    && t.port[(a, d)] in r.ports && r.ports[t.port[(a, d)]] == Port(d, Weight(t, a, d), t1, true)
    && forall p :: p in r.ports && p != t.port[(a, d)] ==> !r.ports[p].connected
  }

  lemma MeasureFirst(t: Topology, a: nat, d: nat, sentAt: nat)
    requires Configured(t) && Link(t, a, d) && Weight(t, a, d) < INFINITY_COST
    ensures (a, d) in t.port && t.port[(a, d)] in Start(a, t.numPorts).ports
    ensures var now := sentAt + Weight(t, a, d);
      Single(t, RecvPong(Start(a, t.numPorts), t.port[(a, d)], d, sentAt, now).0, a, d, now)
  {
    hide Consistent, RecvPong, Configured, Weight, Link;
    LinkPort(t, a, d);
    StartConsistent(a, t.numPorts);
    FirstPong(Start(a, t.numPorts), t.port[(a, d)], d, sentAt, sentAt + Weight(t, a, d));
    RecvPongConsistent(Start(a, t.numPorts), t.port[(a, d)], d, sentAt, sentAt + Weight(t, a, d));
  }

  lemma SamePortSameEnd(t: Topology, a: nat, d: nat, b: nat)
    requires Configured(t) && Link(t, a, d) && Link(t, a, b) && b != d
    ensures (a, d) in t.port && (a, b) in t.port && t.port[(a, d)] != t.port[(a, b)]
  {
  }

  lemma MeasureSecond(t: Topology, r: Router, a: nat, d: nat, b: nat, t1: nat, sentAt: nat)
    requires Row(t, a, d, b) && Single(t, r, a, d, t1)
    ensures (a, b) in t.port && t.port[(a, b)] in r.ports
    ensures Between2(t, RecvPong(r, t.port[(a, b)], b, sentAt, sentAt + Weight(t, a, b)).0, a, d, b,
                     t1, sentAt + Weight(t, a, b))
  {
    hide Consistent, RecvPong, Configured, Weight, Link, PongPorts;
    LinkPort(t, a, b);
    SamePortSameEnd(t, a, d, b);
    PortsOf(r);
    SecondPorts(r.ports, t.port[(a, d)], t.port[(a, b)], b, Weight(t, a, b), sentAt + Weight(t, a, b));
    FirstPong(r, t.port[(a, b)], b, sentAt, sentAt + Weight(t, a, b));
    RecvPongConsistent(r, t.port[(a, b)], b, sentAt, sentAt + Weight(t, a, b));
  }

  /** A pong on one port leaves another one with a different neighbour connected. */
  lemma SecondPorts(ports: map<nat, Port>, p: nat, q: nat, b: nat, rtt: nat, now: nat)
    requires p in ports && q in ports && p != q && ports[p].to != b
    requires forall x :: x in ports && x != p ==> !ports[x].connected
    ensures var after := PongPorts(ports, q, b, rtt, now);
      && p in after && q in after && after[p] == ports[p] && after[q] == Port(b, rtt, now, true)
      && forall x :: x in after && x != p && x != q ==> !after[x].connected
  {
  }

  lemma PortsOf(r: Router)
    requires Consistent(r)
    ensures forall p :: p in r.ports <==> 0 <= p < r.numPorts
  {
  }

  // ---------------------------------------------------------------- one offer

  /** Entries about the router itself do nothing. */
  lemma {:induction false} OwnEntries(r: Router, source: nat, entries: seq<Entry>, now: nat)
    requires source in r.neighbors && r.id !in r.dv && forall e <- entries :: e.dest == r.id
    ensures Relax(r, source, entries, now) == (r, [])
  {
    if entries == [] {
    } else {
      var n := |entries| - 1;
      assert entries[n] in entries && forall e <- entries[..n] :: e in entries;
      OwnEntries(r, source, entries[..n], now);
      assert Judge(r, source, entries[n]) == Keep(0);
      assert Adverts(r, r.id, Keep(0)) == [];
      ghost var none: seq<Entry> := [];
      assert none + none == none;
    }
  }

  /** A packet that offers one unknown destination, and otherwise tells of the router
      itself, adds a route and has exactly this route told to everybody. */
  lemma {:induction false} OneOffer(r: Router, source: nat, entries: seq<Entry>, now: nat, d: nat, c: nat)
    requires source in r.neighbors && r.id !in r.dv && d !in r.dv && d != r.id && c != INFINITY_COST
    requires OncePerDest(entries) && Entry(d, c) in entries
    requires forall e <- entries :: e.dest == r.id || e.dest == d
    ensures var cost := U32(c + r.neighbors[source].cost);
      Relax(r, source, entries, now)
      == (r.(dv := r.dv[d := Cell(source, cost, now)], forwarding := r.forwarding[d := source]), [Entry(d, U16(cost))])
  {
    hide U32, U16;
    var n := |entries| - 1;
    assert entries[n] in entries && forall e <- entries[..n] :: e in entries;
    if entries[n] == Entry(d, c) {
      OwnEntries(r, source, entries[..n], now);
      var cost := U32(c + r.neighbors[source].cost);
      assert Judge(r, source, entries[n]) == Take(source, cost);
      assert [] + [Entry(d, U16(cost))] == [Entry(d, U16(cost))];
    } else {
      var i :| 0 <= i < |entries| && entries[i] == Entry(d, c);
      assert entries[..n][i] == Entry(d, c);
      OneOffer(r, source, entries[..n], now, d, c);
      assert Relax(r, source, entries[..n], now).1 + [] == Relax(r, source, entries[..n], now).1;
    }
  }

  /** The vector of a router whose table holds one route besides that to x. */
  lemma ListsTwo(dv: map<nat, Cell>, x: nat, d: nat)
    requires dv.Keys == {x, d} && dv[x].cost < INFINITY_COST && dv[d].cost < INFINITY_COST
    ensures var list := Listing(Costs(dv));
      && OncePerDest(list) && Entry(d, dv[d].cost) in list
      && forall e <- list :: e == Entry(x, dv[x].cost) || e == Entry(d, dv[d].cost)
  {
    hide Listing;
    ListingOnce(Costs(dv));
    ListingComplete(Costs(dv), d);
    forall e <- Listing(Costs(dv))
      ensures e == Entry(x, dv[x].cost) || e == Entry(d, dv[d].cost)
    {
      var i :| 0 <= i < |Listing(Costs(dv))| && Listing(Costs(dv))[i] == e;
      ListingSound(Costs(dv), i);
    }
  }

  // ---------------------------------------------------------------- up to the loop

  const FIRST_PING: nat := 30000

  /** d answers a first ping, b one that keeps its port alive for longer, and the ports are
      checked when that of d has just expired. */
  predicate Schedule(wd: nat, wb: nat, ping: nat, expiry: nat) {
    && ping % PING_PERIOD == 0 && expiry % CHECK_PERIOD == 0
    && FIRST_PING + wd <= ping + wb <= expiry <= ping + wb + PORT_LIMIT
    && FIRST_PING + wd + PORT_LIMIT < expiry <= FIRST_PING + wd + PORT_LIMIT + CHECK_PERIOD
  }

  lemma ScheduleExists(wd: nat, wb: nat) returns (ping: nat, expiry: nat)
    requires wd + 3 * wb < INFINITY_COST
    ensures Schedule(wd, wb, ping, expiry)
  {
    ping := (FIRST_PING + wd + CHECK_PERIOD + PING_PERIOD - 1 - wb) / PING_PERIOD * PING_PERIOD;
    expiry := ((FIRST_PING + wd + PORT_LIMIT) / CHECK_PERIOD + 1) * CHECK_PERIOD;
  }

  function Fresh(t: Topology): Network {
    Network(map x | x in t.nodes :: Start(x, t.numPorts), {})
  }

  lemma FreshRun(t: Topology)
    ensures RealRun(t, [Fresh(t)], [], 0)
  {
  }

  /** Both links of a are measured, that to b last, and b has measured a. */
  ghost predicate Stage1(t: Topology, n: Network, a: nat, d: nat, b: nat, ping: nat) {
    && Link(t, a, d) && Link(t, a, b) && a in n.routers && b in n.routers
    && Single(t, n.routers[b], b, a, ping + Weight(t, a, b))
    && Between2(t, n.routers[a], a, d, b, FIRST_PING + Weight(t, a, d), ping + Weight(t, a, b))
  }

  lemma RunStage1(t: Topology, a: nat, d: nat, b: nat, ping: nat) returns (states: seq<Network>, events: seq<Event>)
    requires Row(t, a, d, b) && Link(t, a, d) && Link(t, a, b) && ping % PING_PERIOD == 0
    requires FIRST_PING + Weight(t, a, d) <= ping + Weight(t, a, b)
    ensures RealRun(t, states, events, ping + Weight(t, a, b)) && Stage1(t, states[|events|], a, d, b, ping)
  {
    hide Configured, Link, Weight, Single, Between2, Next, RecvPong, Row, Timely, Run;
    RowFacts(t, a, d, b);
    var wd, wb := Weight(t, a, d), Weight(t, a, b);
    var n0 := Fresh(t);
    FreshRun(t);
    MeasureFirst(t, a, d, FIRST_PING);
    var e0 := Event.Pong(a, d, FIRST_PING, FIRST_PING + wd);
    PongStep(t, n0, a, d, FIRST_PING, FIRST_PING + wd);
    var n1 := Next(t, n0, e0);
    RealRunExtends(t, [n0], [], 0, e0, FIRST_PING + wd);
    MeasureSecond(t, n1.routers[a], a, d, b, FIRST_PING + wd, ping);
    SingleHops(t, n1.routers[a], a, d, FIRST_PING + wd);
    var e1 := Event.Pong(a, b, ping, ping + wb);
    PongStep(t, n1, a, b, ping, ping + wb);
    var n2 := Next(t, n1, e1);
    RealRunExtends(t, [n0] + [n1], [] + [e0], FIRST_PING + wd, e1, ping + wb);
    MeasureFirst(t, b, a, ping);
    var e2 := Event.Pong(b, a, ping, ping + wb);
    PongStep(t, n2, b, a, ping, ping + wb);
    var n3 := Next(t, n2, e2);
    RealRunExtends(t, [n0] + [n1] + [n2], [] + [e0] + [e1], ping + wb, e2, ping + wb);
    states, events := [n0] + [n1] + [n2] + [n3], [] + [e0] + [e1] + [e2];
  }

  lemma SingleHops(t: Topology, r: Router, a: nat, d: nat, t1: nat)
    requires Single(t, r, a, d, t1)
    ensures r.dv.Keys == {d} && r.dv[d].nextHop == d
  {
    hide Consistent;
  }

  /** Router b has one neighbour a, at a distance of w, and a route to d through it. */
  ghost predicate Dependent(q: Router, b: nat, a: nat, d: nat, w: nat, port: nat, cost: nat) {
    && Consistent(q) && q.id == b && q.neighbors == map[a := Neighbor(w, port)]
    && port in q.ports && q.ports[port].connected
    && q.dv.Keys == {a, d} && q.dv[a].cost == w && q.dv[d].nextHop == a && q.dv[d].cost == cost
  }

  /** Router a has one neighbour b and knows no other way. */
  ghost predicate Alone(r: Router, a: nat, b: nat, w: nat, port: nat) {
    && Consistent(r) && r.id == a && r.neighbors == map[b := Neighbor(w, port)]
    && port in r.ports && r.ports[port].connected
    && r.dv.Keys == {b} && r.dv[b].cost == w
  }

  /** A vector that offers a router with one neighbour a second route. */
  lemma BecomesDependent(r: Router, b: nat, a: nat, d: nat, w: nat, port: nat, entries: seq<Entry>, c: nat, now: nat)
    requires Alone(r, b, a, w, port) && d != a && d != b && c + w < INFINITY_COST
    requires OncePerDest(entries) && Entry(d, c) in entries && forall e <- entries :: e.dest == b || e.dest == d
    ensures var (q, ads) := RecvDV(r, port, a, entries, now, 0);
      Dependent(q, b, a, d, w, port, c + w) && ads == [Entry(d, c + w)]
  {
    RecvDVConsistent(r, port, a, entries, now, 0);
    assert r.id !in r.dv;
    hide Consistent, Relax;
    OneOffer(r, a, entries, now, d, c);
  }

  /** So does the vector of a router x that has a route to d and one to b. */
  lemma LearnsThrough(x: map<nat, Cell>, r: Router, b: nat, a: nat, d: nat, w: nat, port: nat, now: nat)
    requires Alone(r, b, a, w, port) && d != a && d != b && x.Keys == {b, d}
    requires x[b].cost + w < INFINITY_COST && x[d].cost + w < INFINITY_COST
    ensures a in r.neighbors
    ensures forall e <- Listing(Costs(x)) :: e.cost + r.neighbors[a].cost < INFINITY_COST
    ensures var (q, ads) := RecvDV(r, port, a, Listing(Costs(x)), now, 0);
      Dependent(q, b, a, d, w, port, x[d].cost + w) && ads == [Entry(d, x[d].cost + w)]
  {
    ListsTwo(x, b, d);
    BecomesDependent(r, b, a, d, w, port, Listing(Costs(x)), x[d].cost, now);
    hide Consistent, Listing, RecvDV, Costs;
  }

  /** What has been measured, without the topology. */
  lemma Measured(t: Topology, r: Router, q: Router, a: nat, d: nat, b: nat, t1: nat, t2: nat, t3: nat)
    requires Row(t, a, d, b) && Between2(t, r, a, d, b, t1, t2) && Single(t, q, b, a, t3)
    ensures (b, a) in t.port && Link(t, a, d) && Link(t, a, b) && Alone(q, b, a, Weight(t, a, b), t.port[(b, a)])
    ensures r.dv.Keys == {b, d} && r.dv[b].cost == Weight(t, a, b) && r.dv[d].cost == Weight(t, a, d)
    ensures Open(t, a, b, r.ports)
  {
    RowFacts(t, a, d, b);
    hide Consistent, Configured;
  }

  /** b has learnt the route to d through a. */
  ghost predicate Stage2(t: Topology, n: Network, a: nat, d: nat, b: nat, ping: nat) {
    && Link(t, a, d) && Link(t, a, b) && a in n.routers && b in n.routers
    && (b, a) in t.port
    && Dependent(n.routers[b], b, a, d, Weight(t, a, b), t.port[(b, a)], Weight(t, a, d) + Weight(t, a, b))
    && Between2(t, n.routers[a], a, d, b, FIRST_PING + Weight(t, a, d), ping + Weight(t, a, b))
  }

  lemma RunStage2(t: Topology, a: nat, d: nat, b: nat, ping: nat) returns (states: seq<Network>, events: seq<Event>)
    requires Row(t, a, d, b) && Link(t, a, d) && Link(t, a, b) && ping % PING_PERIOD == 0
    requires FIRST_PING + Weight(t, a, d) <= ping + Weight(t, a, b)
    ensures RealRun(t, states, events, ping + Weight(t, a, b)) && Stage2(t, states[|events|], a, d, b, ping)
  {
    hide Configured, Link, Weight, Single, Next, RecvDV, Row, Listing, Costs, Run, Timely, Between2, Dependent, Enabled,
      OnAlarm, Prompt, Open, Alone;
    RowFacts(t, a, d, b);
    states, events := RunStage1(t, a, d, b, ping);
    var n, now := states[|events|], ping + Weight(t, a, b);
    Measured(t, n.routers[a], n.routers[b], a, d, b, FIRST_PING + Weight(t, a, d), now, now);
    LearnsThrough(n.routers[a].dv, n.routers[b], b, a, d, Weight(t, a, b), t.port[(b, a)], now);
    CanUpdate(t, n, a);
    UpdateStep(t, n, a, b);
    RealRunExtends(t, states, events, now, Update(a), now);
    var n1 := Next(t, n, Update(a));
    states, events := states + [n1], events + [Update(a)];
    var m := Message(a, b, Listing(Costs(n.routers[a].dv)));
    CanDeliver(t, n1, m, now);
    DeliverStep(t, n1, m, now);
    RealRunExtends(t, states, events, now, Deliver(m, now, 0), now);
    states, events := states + [Next(t, n1, Deliver(m, now, 0))], events + [Deliver(m, now, 0)];
  }

  /** The port towards d expires: the route to d is lost, b stays a neighbour. */
  lemma DirectExpires(t: Topology, r: Router, a: nat, d: nat, b: nat, t1: nat, t2: nat, now: nat)
    requires Configured(t) && Between2(t, r, a, d, b, t1, t2) && b != d
    requires PORT_LIMIT < now - t1 <= PORT_LIMIT + CHECK_PERIOD && 0 <= now - t2 <= PORT_LIMIT
    ensures Alone(Refresh(r, now), a, b, Weight(t, a, b), t.port[(a, b)])
    ensures Advertises([Entry(d, INFINITY_COST)], r, now)
  {
    hide Consistent, Gone, PortsBelow, Fallback, ExpiredKeys, Refresh, AdsFor, Row, Configured, Between2;
    Middle(t, r, a, d, b, t1, t2);
    RefreshConsistent(r, now);
    GoneIs(t, r, a, d, b, t1, t2, now);
    BSurvives(t, r, a, d, b, t1, t2, now);
    Remains(r.dv, r.neighbors, a, d, b, now);
    OneLost(r.neighbors - {d}, d);
    RefreshIs(r, now);
  }

  lemma Middle(t: Topology, r: Router, a: nat, d: nat, b: nat, t1: nat, t2: nat)
    requires Between2(t, r, a, d, b, t1, t2) && b != d
    ensures Consistent(r) && r.id == a && Link(t, a, b) && (a, b) in t.port
    ensures r.dv.Keys == {d, b} && r.dv[d].nextHop == d && r.dv[b] == Cell(b, Weight(t, a, b), t2)
    ensures r.neighbors.Keys == {d, b} && r.neighbors[b] == Neighbor(Weight(t, a, b), t.port[(a, b)])
  {
    hide Consistent;
  }

  lemma RefreshIs(r: Router, now: nat)
    ensures var gone, q := Gone(r, now), Refresh(r, now);
      && q.id == r.id && q.ports == PortsBelow(r.ports, now, r.numPorts) && q.neighbors == r.neighbors - gone
      && q.dv == Fallback(r.dv, r.neighbors - gone, ExpiredKeys(r.dv, gone, now), now)
  {
  }

  lemma OneLost(neighbors: map<nat, Neighbor>, d: nat)
    requires d !in neighbors
    ensures AdsFor([Entry(d, INFINITY_COST)], neighbors, {d})
  {
  }

  lemma Remains(dv: map<nat, Cell>, neighbors: map<nat, Neighbor>, a: nat, d: nat, b: nat, now: nat)
    requires d != b && dv.Keys == {d, b} && neighbors.Keys == {d, b} && dv[d].nextHop == d && dv[b].nextHop == b
    requires 0 <= now - dv[b].updated <= PORT_LIMIT
    ensures ExpiredKeys(dv, {d}, now) == {d} && Fallback(dv, neighbors - {d}, {d}, now) == map[b := dv[b]]
  {
  }

  lemma GoneIs(t: Topology, r: Router, a: nat, d: nat, b: nat, t1: nat, t2: nat, now: nat)
    requires Configured(t) && Between2(t, r, a, d, b, t1, t2) && b != d
    requires PORT_LIMIT < now - t1 <= PORT_LIMIT + CHECK_PERIOD && 0 <= now - t2 <= PORT_LIMIT
    ensures Gone(r, now) == {d}
  {
    var p := t.port[(a, d)];
    assert PortDies(r.ports, p, now) && p < r.numPorts;
  }

  lemma BSurvives(t: Topology, r: Router, a: nat, d: nat, b: nat, t1: nat, t2: nat, now: nat)
    requires Configured(t) && Between2(t, r, a, d, b, t1, t2) && b != d && 0 <= now - t2 <= PORT_LIMIT
    ensures Open(t, a, b, PortsBelow(r.ports, now, r.numPorts))
  {
  }

  lemma ExpiryIsPrompt(t: Topology, n: Network, a: nat, d: nat, b: nat, t1: nat, t2: nat, now: nat, ads: seq<Entry>)
    requires a in n.routers && Between2(t, n.routers[a], a, d, b, t1, t2) && t1 <= t2
    requires now <= t1 + PORT_LIMIT + CHECK_PERIOD && now % CHECK_PERIOD == 0
    ensures OnAlarm(Expire(a, now, ads)) && Prompt(n, Expire(a, now, ads))
  {
    hide Consistent;
  }

  /** a has lost its route to d, b still has one through a. */
  ghost predicate Stage3(t: Topology, n: Network, a: nat, d: nat, b: nat) {
    && Link(t, a, d) && Link(t, a, b) && a in n.routers && b in n.routers
    && (a, b) in t.port && (b, a) in t.port && Alone(n.routers[a], a, b, Weight(t, a, b), t.port[(a, b)])
    && Dependent(n.routers[b], b, a, d, Weight(t, a, b), t.port[(b, a)], Weight(t, a, d) + Weight(t, a, b))
  }

  lemma RunStage3(t: Topology, a: nat, d: nat, b: nat, ping: nat, expiry: nat)
    returns (states: seq<Network>, events: seq<Event>)
    requires Row(t, a, d, b) && Link(t, a, d) && Link(t, a, b)
    requires Schedule(Weight(t, a, d), Weight(t, a, b), ping, expiry)
    ensures RealRun(t, states, events, expiry) && Stage3(t, states[|events|], a, d, b)
  {
    hide Configured, Link, Weight, Next, Row, Run, Timely, Between2, Dependent, Enabled, Alone, Advertises, Refresh,
      OnAlarm, Prompt;
    RowFacts(t, a, d, b);
    states, events := RunStage2(t, a, d, b, ping);
    var n, t1, t2 := states[|events|], FIRST_PING + Weight(t, a, d), ping + Weight(t, a, b);
    var ads := [Entry(d, INFINITY_COST)];
    DirectExpires(t, n.routers[a], a, d, b, t1, t2, expiry);
    ExpiryIsPrompt(t, n, a, d, b, t1, t2, expiry, ads);
    CanExpire(t, n, a, expiry, ads);
    ExpireStep(t, n, a, expiry, ads);
    RealRunExtends(t, states, events, t2, Expire(a, expiry, ads), expiry);
    states, events := states + [Next(t, n, Expire(a, expiry, ads))], events + [Expire(a, expiry, ads)];
  }

  // ---------------------------------------------------------------- the loop and its count

  /** x and y send data for d to each other, and x's cost c is on its way to y. */
  ghost predicate Counts(t: Topology, n: Network, x: nat, y: nat, d: nat, c: nat) {
    && Link(t, x, y) && Link(t, y, x) && Weight(t, x, y) == Weight(t, y, x) && x != y && c < INFINITY_COST
    && x in n.routers && y in n.routers && n.routers[x].id == x && n.routers[y].id == y
    && Mutual(Talk(n.routers[x], n.routers[y], [Entry(d, c)]), d, Weight(t, x, y), c)
    && Relies(n.routers[x], y, d, Weight(t, x, y)) && n.routers[x].dv[d].cost == c
    && Open(t, x, y, n.routers[x].ports) && Open(t, y, x, n.routers[y].ports)
    && Message(x, y, [Entry(d, c)]) in n.flight
  }

  lemma DependentRelies(q: Router, b: nat, a: nat, d: nat, w: nat, port: nat, cost: nat)
    requires Dependent(q, b, a, d, w, port, cost) && d != a
    ensures Relies(q, a, d, w) && q.id == b && q.dv[d].cost == cost && port in q.ports && q.ports[port].connected
  {
    hide Consistent;
  }

  lemma Talking(t: Topology, n: Network, a: nat, b: nat, d: nat, w: nat, cost: nat, c: nat)
    requires a != b && d != a && d != b && Link(t, a, b) && Link(t, b, a) && Weight(t, b, a) == Weight(t, a, b) == w
    requires (a, b) in t.port && (b, a) in t.port && a in n.routers && b in n.routers && c < INFINITY_COST
    requires Dependent(n.routers[a], a, b, d, w, t.port[(a, b)], c)
    requires Dependent(n.routers[b], b, a, d, w, t.port[(b, a)], cost) && Message(a, b, [Entry(d, c)]) in n.flight
    ensures Counts(t, n, a, b, d, c)
  {
    DependentRelies(n.routers[a], a, b, d, w, t.port[(a, b)], c);
    DependentRelies(n.routers[b], b, a, d, w, t.port[(b, a)], cost);
    hide Dependent, Relies, Link, Weight;
  }

  lemma CountsLoop(t: Topology, n: Network, x: nat, y: nat, d: nat, c: nat)
    requires Counts(t, n, x, y, d, c)
    ensures x in n.routers && y in n.routers && Loops(n.routers[x], n.routers[y], d)
    ensures d in n.routers[x].dv && n.routers[x].dv[d].cost == c
  {
    hide Mutual, Consistent, Open;
    MutualLoops(Talk(n.routers[x], n.routers[y], [Entry(d, c)]), d, Weight(t, x, y), c);
  }

  /** Of any three routers in a row whose costs are small, there is a run, at times that the
      routers can keep, in which the route of the middle one to the first expires, comes
      back from the third, and ends with the two sending data for the first to each other;
      the new cost of the middle one is on its way to the third. */
  lemma RowLoops(t: Topology, a: nat, d: nat, b: nat) returns (states: seq<Network>, events: seq<Event>, now: nat)
    requires Row(t, a, d, b)
    ensures RealRun(t, states, events, now)
    ensures var rs := states[|events|].routers; a in rs && b in rs && Loops(rs[a], rs[b], d)
    ensures Link(t, a, d) && Link(t, a, b)
    ensures Counts(t, states[|events|], a, b, d, Weight(t, a, d) + 2 * Weight(t, a, b))
  {
    hide Configured, Link, Weight, Next, RecvDV, Row, Listing, Costs, Run, Timely, Dependent, Alone, Enabled, Counts,
      Loops, OnAlarm, Prompt, Schedule;
    RowFacts(t, a, d, b);
    var wd, wb := Weight(t, a, d), Weight(t, a, b);
    var ping, expiry := ScheduleExists(wd, wb);
    now := expiry;
    states, events := RunStage3(t, a, d, b, ping, expiry);
    var n := states[|events|];
    OneNeighbor(n.routers[b], b, a, d, wb, t.port[(b, a)], wd + wb);
    LearnsThrough(n.routers[b].dv, n.routers[a], a, b, d, wb, t.port[(a, b)], now);
    CanUpdate(t, n, b);
    UpdateStep(t, n, b, a);
    RealRunExtends(t, states, events, now, Update(b), now);
    var n1 := Next(t, n, Update(b));
    states, events := states + [n1], events + [Update(b)];
    var m := Message(b, a, Listing(Costs(n.routers[b].dv)));
    CanDeliver(t, n1, m, now);
    DeliverStep(t, n1, m, now);
    RealRunExtends(t, states, events, now, Deliver(m, now, 0), now);
    var n2 := Next(t, n1, Deliver(m, now, 0));
    states, events := states + [n2], events + [Deliver(m, now, 0)];
    OneNeighbor(n2.routers[a], a, b, d, wb, t.port[(a, b)], wd + 2 * wb);
    Talking(t, n2, a, b, d, wb, wd + wb, wd + 2 * wb);
    CountsLoop(t, n2, a, b, d, wd + 2 * wb);
  }

  lemma OneNeighbor(q: Router, b: nat, a: nat, d: nat, w: nat, port: nat, cost: nat)
    requires Dependent(q, b, a, d, w, port, cost)
    ensures q.dv.Keys == {a, d} && q.dv[a].cost == w && q.dv[d].cost == cost
    ensures port in q.ports && q.ports[port].connected
  {
  }

  /** One more update: y answers at the cost raised by that of the link, and now its word
      is on its way. */
  lemma CountStep(t: Topology, n: Network, x: nat, y: nat, d: nat, c: nat, now: nat)
    requires Configured(t) && Counts(t, n, x, y, d, c) && c + Weight(t, x, y) < INFINITY_COST
    ensures var e := Deliver(Message(x, y, [Entry(d, c)]), now, 0);
      && Enabled(t, n, e) && OnAlarm(e) && Prompt(n, e)
      && Counts(t, Next(t, n, e), y, x, d, c + Weight(t, x, y))
  {
    hide Consistent, Relies, Enabled, Next, Configured, Link, Weight, RecvDV, Open, OnAlarm, Prompt;
    var m, w := Message(x, y, [Entry(d, c)]), Weight(t, x, y);
    LinkPort(t, x, y);
    LinkPort(t, y, x);
    KnowsNeighbor(n.routers[y], x, d, w);
    CanDeliver(t, n, m, now);
    DeliverStep(t, n, m, now);
    NewsIsTaken(n.routers[y], x, d, w, t.port[(y, x)], c, now, 0);
    AnswerRelies(n.routers[y], x, d, w, c, now);
    OpenStays(t, y, x, n.routers[y].ports, Answer(n.routers[y], x, d, w, c, now).0);
  }

  lemma KnowsNeighbor(r: Router, h: nat, d: nat, w: nat)
    requires Relies(r, h, d, w)
    ensures h in r.neighbors && r.neighbors[h].cost == w
  {
    hide Consistent;
  }

  lemma OpenStays(t: Topology, a: nat, b: nat, ports: map<nat, Port>, q: Router)
    requires Open(t, a, b, ports) && q.ports == ports
    ensures Open(t, a, b, q.ports)
  {
  }

  /** k updates later: the costs were told by a and b in turn. */
  ghost predicate CountsAfter(t: Topology, states: seq<Network>, start: nat, a: nat, b: nat, d: nat, c: nat, w: nat,
                              k: nat) {
    && start + k < |states|
    && if k % 2 == 0 then Counts(t, states[start + k], a, b, d, c + k * w)
       else Counts(t, states[start + k], b, a, d, c + k * w)
  }

  /** From a network in which two routers count, n more updates bring the cost to c + n w,
      as long as that is finite. */
  lemma {:induction false} KeepsCounting(t: Topology, states: seq<Network>, events: seq<Event>, now: nat, a: nat,
                                         b: nat, d: nat, c: nat, w: nat, n: nat)
    returns (ss: seq<Network>, es: seq<Event>)
    requires Configured(t) && RealRun(t, states, events, now) && Link(t, a, b) && Weight(t, a, b) == w
    requires Counts(t, states[|events|], a, b, d, c) && c + n * w < INFINITY_COST
    ensures RealRun(t, ss, es, now) && |es| == |events| + n && states <= ss && events <= es
    ensures forall k: nat :: k <= n ==> CountsAfter(t, ss, |events|, a, b, d, c, w, k)
    decreases n
  {
    hide Configured, Run, Timely, Counts, Enabled, Next, Link, Weight, OnAlarm, Prompt;
    if n == 0 {
      ss, es := states, events;
      assert c + 0 * w == c;
    } else {
      assert n * w == (n - 1) * w + w;
      ss, es := KeepsCounting(t, states, events, now, a, b, d, c, w, n - 1);
      var x, y := if n % 2 == 1 then a else b, if n % 2 == 1 then b else a;
      var z, cost := ss[|es|], c + (n - 1) * w;
      assert CountsAfter(t, ss, |events|, a, b, d, c, w, n - 1);
      LinkPort(t, a, b);
      CountStep(t, z, x, y, d, cost, now);
      var e := Deliver(Message(x, y, [Entry(d, cost)]), now, 0);
      RealRunExtends(t, ss, es, now, e, now);
      var more := ss + [Next(t, z, e)];
      forall k: nat | k <= n
        ensures CountsAfter(t, more, |events|, a, b, d, c, w, k)
      {
        if k < n {
          assert CountsAfter(t, ss, |events|, a, b, d, c, w, k);
        }
      }
      ss, es := more, es + [e];
    }
  }

  /** The loop stays while the cost grows: the run into it goes on for as many updates as
      the sum stays below infinity, the two send data for d to each other all the time,
      and every update adds the cost of the link between them. */
  lemma RowCounts(t: Topology, a: nat, d: nat, b: nat, n: nat)
    returns (states: seq<Network>, events: seq<Event>, start: nat, now: nat)
    requires Row(t, a, d, b) && Link(t, a, d) && Link(t, a, b)
    requires Weight(t, a, d) + (n + 2) * Weight(t, a, b) < INFINITY_COST
    ensures RealRun(t, states, events, now) && |events| == start + n
    ensures forall k: nat :: k <= n ==> Grown(states[start + k], a, b, d, if k % 2 == 0 then a else b,
                                              Weight(t, a, d) + (k + 2) * Weight(t, a, b))
  {
    hide Configured, Row, Timely, Run, Counts, Link, Weight, Loops;
    RowFacts(t, a, d, b);
    var wd, w := Weight(t, a, d), Weight(t, a, b);
    states, events, now := RowLoops(t, a, d, b);
    start := |events|;
    assert (n + 2) * w == 2 * w + n * w;
    states, events := KeepsCounting(t, states, events, now, a, b, d, wd + 2 * w, w, n);
    forall k: nat | k <= n
      ensures Grown(states[start + k], a, b, d, if k % 2 == 0 then a else b, wd + (k + 2) * w)
    {
      assert CountsAfter(t, states, start, a, b, d, wd + 2 * w, w, k);
      assert wd + 2 * w + k * w == wd + (k + 2) * w;
      if k % 2 == 0 {
        CountsLoop(t, states[start + k], a, b, d, wd + 2 * w + k * w);
      } else {
        CountsLoop(t, states[start + k], b, a, d, wd + 2 * w + k * w);
      }
      LoopsBoth(states[start + k], a, b, d);
    }
  }

  lemma LoopsBoth(n: Network, a: nat, b: nat, d: nat)
    requires a in n.routers && b in n.routers
    ensures Loops(n.routers[a], n.routers[b], d) <==> Loops(n.routers[b], n.routers[a], d)
  {
  }

  /** a and b send data for d to each other, and x has the cost c for it. */
  ghost predicate Grown(n: Network, a: nat, b: nat, d: nat, x: nat, c: nat) {
    && a in n.routers && b in n.routers && Loops(n.routers[a], n.routers[b], d)
    && x in n.routers && d in n.routers[x].dv && n.routers[x].dv[d].cost == c
  }

  /** And past the limit: where the run into the loop ends, the two go on for ever, however
      many updates they exchange, exactly if the count steps over 65535. */
  lemma RowNeverEnds(t: Topology, n: Network, a: nat, d: nat, b: nat)
    requires Row(t, a, d, b) && Link(t, a, d) && Link(t, a, b)
    requires Counts(t, n, a, b, d, Weight(t, a, d) + 2 * Weight(t, a, b))
    ensures var cost := Weight(t, a, d) + 2 * Weight(t, a, b);
      var x := Talk(n.routers[a], n.routers[b], [Entry(d, cost)]);
      (forall times: seq<nat> :: Loops(Turns(x, times).from, Turns(x, times).to, d))
      <==> StepsOver(cost, Weight(t, a, b))
  {
    hide Mutual, Loops, Turns, StepsOver, Row, Relies;
    var cost := Weight(t, a, d) + 2 * Weight(t, a, b);
    CountsForeverExactly(Talk(n.routers[a], n.routers[b], [Entry(d, cost)]), d, Weight(t, a, b), cost);
  }

  // ---------------------------------------------------------------- a real network

  /** Routers 0, 1 and 2 in a line, the same number of milliseconds apart. */
  function Line(w: nat): Topology {
    Topology({0, 1, 2}, map[(0, 1) := w, (1, 0) := w, (1, 2) := w, (2, 1) := w],
             map[(0, 1) := 0, (1, 0) := 0, (1, 2) := 1, (2, 1) := 0], 2)
  }

  /** In a line of three routers two milliseconds apart, 1 and 2 come to send data for 0 to
      each other and stay so, however many updates they exchange. */
  lemma LineLoops() returns (states: seq<Network>, events: seq<Event>, now: nat)
    ensures Configured(Line(2)) && Modest(Line(2)) && RealRun(Line(2), states, events, now)
    ensures var rs := states[|events|].routers;
      && 1 in rs && 2 in rs && Loops(rs[1], rs[2], 0)
      && forall times: seq<nat> ::
           var x := Turns(Talk(rs[1], rs[2], [Entry(0, 6)]), times); Loops(x.from, x.to, 0)
  {
    hide Run, Loops, Timely, Turns, Counts, StepsOver, Configured;
    LineIsRow();
    states, events, now := RowLoops(Line(2), 1, 0, 2);
    RowNeverEnds(Line(2), states[|events|], 1, 0, 2);
    StepsOverSix();
  }

  lemma LineIsRow()
    ensures Row(Line(2), 1, 0, 2) && Configured(Line(2))
  {
  }

  lemma StepsOverSix()
    ensures StepsOver(6, 2)
  {
    assert Halves(2, 1) && !Halves(7, 1);
  }

  /** A walk between different routers takes time. */
  lemma ApartTakesTime(t: Topology, a: nat, b: nat)
    requires Configured(t) && a != b
    ensures !Within(t, a, b, 0)
  {
    if w :| Joins(t, w, a, b) && WalkCost(t, w) <= 0 {
      assert |w| > 1 && Link(t, w[0], w[1]);
      hide Configured;
    }
  }

  /** Past the limit costs are too low: 32765 updates later the cost that 2 tells of 0 has
      come round to nothing. */
  lemma LineUndershoots() returns (states: seq<Network>, events: seq<Event>, now: nat)
    ensures Configured(Line(2)) && Modest(Line(2)) && RealRun(Line(2), states, events, now)
    ensures var rs := states[|events|].routers;
      && 1 in rs && 2 in rs && Loops(rs[1], rs[2], 0)
      && forall times: seq<nat> :: |times| == 32765 ==>
           var x := Turns(Talk(rs[1], rs[2], [Entry(0, 6)]), times); x.from.id == 2 && x.news == [Entry(0, 0)]
    ensures !Within(Line(2), 2, 0, 0)
  {
    hide Run, Loops, Timely, Turns, Mutual, Configured;
    LineIsRow();
    states, events, now := RowLoops(Line(2), 1, 0, 2);
    var rs := states[|events|].routers;
    forall times: seq<nat> | |times| == 32765
      ensures var x := Turns(Talk(rs[1], rs[2], [Entry(0, 6)]), times); x.from.id == 2 && x.news == [Entry(0, 0)]
    {
      EvenCountsForever(Talk(rs[1], rs[2], [Entry(0, 6)]), 0, 2, 6, times);
      SpeakersAlternate(Talk(rs[1], rs[2], [Entry(0, 6)]), 0, 2, 6, times);
      MutualNews(Turns(Talk(rs[1], rs[2], [Entry(0, 6)]), times), 0, 2, 65536);
    }
    ApartTakesTime(Line(2), 2, 0);
  }

  lemma MutualNews(x: Talk, d: nat, w: nat, c: nat)
    requires Mutual(x, d, w, c)
    ensures x.news == [Entry(d, U16(c))]
  {
  }
}
