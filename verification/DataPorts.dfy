/** Data leaves on the port that the next hop is attached to, whatever the network does. */
module DataPorts {
  import opened HandlerEffects
  import opened RouterInvariant
  import opened RouterTables
  import opened Soundness
  import opened Topology

  /** Every neighbour is filed under the port to which its link leads. */
  ghost predicate Attached(t: Topology, a: nat, r: Router) {
    forall b :: b in r.neighbors ==> Link(t, a, b) && (a, b) in t.port && r.neighbors[b].port == t.port[(a, b)]
  }

  ghost predicate AllAttached(t: Topology, n: Network) {
    forall a :: a in n.routers ==> Attached(t, a, n.routers[a])
  }

  lemma StepAttached(t: Topology, n: Network, e: Event)
    requires Enabled(t, n, e) && AllAttached(t, n)
    ensures AllAttached(t, Next(t, n, e))
  {
    hide RecvPong, RecvDV, Refresh, Met, EmitSome, Emit, Advertises, Listing;
    match e
    case Pong(a, b, sentAt, now) =>
      PongPortsExactly(n.routers[a], t.port[(a, b)], b, sentAt, now, t.port[(a, b)]);
    case Deliver(m, now, junk) =>
      var r, q := n.routers[m.to], Next(t, n, e).routers[m.to];
      forall b: nat
        ensures q.neighbors.Keys == r.neighbors.Keys + {m.from}
        ensures b in r.neighbors ==> q.neighbors[b] == r.neighbors[b]
      {
        VectorMeets(r, t.port[(m.to, m.from)], m.from, m.entries, now, junk, b);
      }
      VectorMeets(r, t.port[(m.to, m.from)], m.from, m.entries, now, junk, m.from);
    case Update(a) =>
    case Expire(a, now, ads) => RefreshForgets(n.routers[a], now);
  }

  lemma RefreshForgets(r: Router, now: nat)
    ensures forall b ::
              b in Refresh(r, now).neighbors ==> b in r.neighbors && Refresh(r, now).neighbors[b] == r.neighbors[b]
  {
    hide Gone, PortsBelow, Fallback, NextHops;
  }

  lemma {:induction false} RunAttached(t: Topology, states: seq<Network>, events: seq<Event>, i: nat)
    requires Run(t, states, events) && i < |states|
    ensures AllAttached(t, states[i])
  {
    hide Enabled, Next, Attached;
    if i == 0 {
      FreshAttached(t, states[0]);
    } else {
      RunAttached(t, states, events, i - 1);
      StepAttached(t, states[i - 1], events[i - 1]);
    }
  }

  lemma FreshAttached(t: Topology, n: Network)
    requires Init(t, n)
    ensures AllAttached(t, n)
  {
  }

  /** At every moment of every run a router hands data for a known destination to the port
      that physically leads to the next hop in its table, takes in its own, and drops the
      rest. */
  lemma DataLeavesRight(t: Topology, states: seq<Network>, events: seq<Event>, i: nat, a: nat, d: nat)
    requires Configured(t) && Modest(t) && Run(t, states, events) && i < |states| && a in states[i].routers
    ensures var r := states[i].routers[a];
      && (d in r.forwarding ==> r.forwarding[d] in r.neighbors)
      && if d == a then RecvData(r, d) == Local
         else if d !in r.dv then RecvData(r, d) == Unreachable
         else
           var h := r.dv[d].nextHop;
           Link(t, a, h) && (a, h) in t.port && RecvData(r, d) == Out(t.port[(a, h)])
  {
    hide Run, Configured, Modest, Consistent, RecvData;
    RunAttached(t, states, events, i);
    RunSound(t, states, events, i);
    SoundHere(t, states[i], a);
    RecvDataFollowsTable(states[i].routers[a], d);
    HopIsNeighbor(states[i].routers[a], d);
  }

  lemma SoundHere(t: Topology, n: Network, a: nat)
    requires Sound(t, n) && a in n.routers
    ensures Consistent(n.routers[a]) && n.routers[a].id == a
  {
    hide Consistent, SoundTable, SoundNeighbors, SoundPorts;
  }

  lemma HopIsNeighbor(r: Router, d: nat)
    requires Consistent(r)
    ensures d in r.dv ==> r.dv[d].nextHop in r.neighbors
  {
    assert d in r.dv ==> RouteBacked(r, d);
  }
}
