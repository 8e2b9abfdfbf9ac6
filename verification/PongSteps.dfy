/** A pong keeps a router's routes good, while no link dies. */
module PongSteps {
  import opened RouterTables
  import opened RouterInvariant
  import opened Advertising
  import opened Topology
  import opened Routes
  import opened RouteSteps
  import opened Words

  /** What is known when router a gets a pong from b. */
  ghost predicate Hailed(t: Topology, rs: Routers, inbox: Mail, a: nat, b: nat) {
    && a in rs && Configured(t) && Compact(t) && Routed(t, rs, inbox, a) && Settled(t, a, rs[a]) && Link(t, a, b)
    && (forall b :: Link(t, a, b) ==> b in rs && b in inbox && forall x <- inbox[b] :: x.dest != b)
    && (a, b) in t.port && t.port[(a, b)] in rs[a].ports
  }

  /** What router a knows of b when its pong arrives: a direct route, or no route through b. */
  ghost predicate Greeted(t: Topology, r: Router, a: nat, b: nat) {
    && Link(t, a, b) && (a, b) in t.port && t.port[(a, b)] in r.ports && 0 < Weight(t, a, b) < INFINITY_COST
    && U32(Weight(t, a, b) - r.ports[t.port[(a, b)]].cost) == (if b in r.neighbors then 0 else Weight(t, a, b))
    && (if b in r.neighbors then b in r.dv && r.dv[b].cost <= Weight(t, a, b)
        else forall d :: d in r.dv ==> r.dv[d].nextHop != b)
  }

  /** A pong measures the whole round-trip time on first contact, and no change later. */
  lemma FirstContact(t: Topology, rs: Routers, inbox: Mail, a: nat, b: nat)
    requires Hailed(t, rs, inbox, a, b)
    ensures Greeted(t, rs[a], a, b) && a != b
  {
    hide Compact, Routed;
    LinkFits(t, a, b);
    var r := rs[a];
    assert Measured(t, a, r, b);
    if b in r.neighbors {
      assert Near(t, a, r, b);
    } else {
      assert forall d :: d in r.dv ==> RouteBacked(r, d);
    }
  }

  ghost function Full(t: Topology, r: Router, a: nat, b: nat, now: nat): map<nat, Cell>
    requires Link(t, a, b) && (a, b) in t.port
  {
    var w := Weight(t, a, b);
    var diff := if b in r.neighbors then 0 else w;
    var table := PongTable(r.dv, r.neighbors[b := Neighbor(w, t.port[(a, b)])], b, w, diff, now);
    if b in table then table else table[b := Cell(b, w, now)]
  }

  /** Either nothing but times change, or the route to b becomes direct because that is
      not dearer. */
  lemma FullCell(t: Topology, r: Router, a: nat, b: nat, now: nat, d: nat)
    requires Greeted(t, r, a, b) && d in Full(t, r, a, b, now)
    ensures var c := Full(t, r, a, b, now)[d];
      || (d == b && c == Cell(b, Weight(t, a, b), now) && (b in r.dv ==> c.cost <= r.dv[b].cost))
      || (d in r.dv && c.cost == r.dv[d].cost && c.nextHop == r.dv[d].nextHop)
  {
  }

  lemma FullNear(t: Topology, r: Router, a: nat, b: nat, now: nat)
    requires Greeted(t, r, a, b)
    ensures r.dv.Keys + {b} == Full(t, r, a, b, now).Keys
    ensures Full(t, r, a, b, now)[b].cost <= Weight(t, a, b)
  {
  }

  lemma FullImproves(t: Topology, rs: Routers, inbox: Mail, a: nat, b: nat, now: nat, q: Router)
    requires Hailed(t, rs, inbox, a, b) && q.dv == Full(t, rs[a], a, b, now)
    ensures Improves(rs, rs[a := q]) && Routed(t, rs[a := q], inbox, a)
  {
    hide Full, Good, Configured, Compact, Settled, Greeted;
    FirstContact(t, rs, inbox, a, b);
    FullNear(t, rs[a], a, b, now);
    forall d | d in q.dv
      ensures Good(t, rs, inbox, a, d, q.dv[d].nextHop, q.dv[d].cost)
      ensures d in rs[a].dv ==> q.dv[d].cost <= rs[a].dv[d].cost
    {
      FullCell(t, rs[a], a, b, now, d);
      GoodDirect(t, rs, inbox, a, b);
    }
    Change(t, rs, inbox, a, q);
  }

  /** The result of a pong, with the measured values put in. */
  lemma PongResult(t: Topology, r: Router, a: nat, b: nat, sentAt: nat, now: nat)
    requires Greeted(t, r, a, b) && now == sentAt + Weight(t, a, b)
    ensures var q := RecvPong(r, t.port[(a, b)], b, sentAt, now).0;
      && q.dv == Full(t, r, a, b, now)
      && q.ports == PongPorts(r.ports, t.port[(a, b)], b, Weight(t, a, b), now)
      && q.neighbors == r.neighbors[b := Neighbor(Weight(t, a, b), t.port[(a, b)])]
      && q.id == r.id && q.numPorts == r.numPorts
  {
    hide PongTable, PongPorts, NextHops, IsNews, Weight, Listing, Costs, PongNews;
  }

  /** Listing the current table tells current costs, without truncation. */
  lemma TellsTable(t: Topology, rs: Routers, inbox: Mail, a: nat, ads: seq<Entry>)
    requires Compact(t) && Routed(t, rs, inbox, a)
    requires forall x <- ads :: x.dest in rs[a].dv && x.cost == U16(rs[a].dv[x.dest].cost)
    ensures Told(t, rs, a, ads)
  {
  }

  lemma ToldIsSaid(t: Topology, rs: Routers, later: Routers, a: nat, ads: seq<Entry>)
    requires Improves(rs, later) && Told(t, later, a, ads)
    ensures Said(t, rs, later, a, ads)
  {
  }

  /** A pong from b does not disconnect the port of another neighbour. */
  lemma OtherPortStays(t: Topology, r: Router, a: nat, b: nat, c: nat)
    requires Configured(t) && Settled(t, a, r) && Link(t, a, b) && c in r.neighbors && b != c
    requires (a, b) in t.port && (a, c) in t.port && t.port[(a, c)] in r.ports
    ensures t.port[(a, c)] != t.port[(a, b)] && r.ports[t.port[(a, c)]].to != b
  {
    assert Near(t, a, r, c);
    assert PortBacked(r, t.port[(a, c)]);
    assert b in r.neighbors ==> Near(t, a, r, b);
  }

  lemma PongNear(t: Topology, r: Router, a: nat, b: nat, now: nat, q: Router, c: nat)
    requires Configured(t) && Settled(t, a, r) && Greeted(t, r, a, b) && c in q.neighbors
    requires q.dv == Full(t, r, a, b, now)
    requires q.ports == PongPorts(r.ports, t.port[(a, b)], b, Weight(t, a, b), now)
    requires q.neighbors == r.neighbors[b := Neighbor(Weight(t, a, b), t.port[(a, b)])]
    ensures Near(t, a, q, c)
  {
    hide Configured, Consistent, Full, Link, Weight, Measured;
    FullNear(t, r, a, b, now);
    if c != b {
      assert Near(t, a, r, c);
      OtherPortStays(t, r, a, b, c);
      FullCell(t, r, a, b, now, c);
    }
  }

  lemma PongMeasured(t: Topology, r: Router, a: nat, b: nat, now: nat, q: Router, c: nat)
    requires Configured(t) && Measured(t, a, r, c) && Greeted(t, r, a, b)
    requires q.ports == PongPorts(r.ports, t.port[(a, b)], b, Weight(t, a, b), now)
    requires q.neighbors == r.neighbors[b := Neighbor(Weight(t, a, b), t.port[(a, b)])]
    ensures Measured(t, a, q, c)
  {
  }

  lemma PongSettled(t: Topology, r: Router, a: nat, b: nat, now: nat, q: Router)
    requires Configured(t) && Settled(t, a, r) && Greeted(t, r, a, b) && Consistent(q) && q.dv == Full(t, r, a, b, now)
    requires q.ports == PongPorts(r.ports, t.port[(a, b)], b, Weight(t, a, b), now)
    requires q.neighbors == r.neighbors[b := Neighbor(Weight(t, a, b), t.port[(a, b)])]
    requires q.id == r.id && q.numPorts == r.numPorts
    ensures Settled(t, a, q)
  {
    hide Configured, Consistent, Full, Link, Weight, PongPorts, Near, Measured, Greeted;
    forall c | c in q.neighbors
      ensures Near(t, a, q, c)
    {
      PongNear(t, r, a, b, now, q, c);
    }
    forall c
      ensures Measured(t, a, q, c)
    {
      PongMeasured(t, r, a, b, now, q, c);
    }
  }

  lemma PongKeeps(t: Topology, rs: Routers, inbox: Mail, a: nat, b: nat, sentAt: nat, now: nat)
    requires Hailed(t, rs, inbox, a, b) && now == sentAt + Weight(t, a, b)
    ensures var (q, ads) := RecvPong(rs[a], t.port[(a, b)], b, sentAt, now);
      var later := rs[a := q];
      Improves(rs, later) && Routed(t, later, inbox, a) && Settled(t, a, q) && Said(t, rs, later, a, ads)
  {
    HailedFacts(t, rs, inbox, a, b);
    FirstContact(t, rs, inbox, a, b);
    hide Hailed, RecvPong, Full, PongPorts, Settled, Compact, Routed, Improves, Consistent, Configured, Said, Told,
      Greeted;
    var (q, ads) := RecvPong(rs[a], t.port[(a, b)], b, sentAt, now);
    PongResult(t, rs[a], a, b, sentAt, now);
    forall x <- ads
      ensures x.dest in q.dv && x.cost == U16(q.dv[x.dest].cost)
    {
      PongAds(rs[a], t.port[(a, b)], b, sentAt, now, x);
    }
    RecvPongConsistent(rs[a], t.port[(a, b)], b, sentAt, now);
    FullImproves(t, rs, inbox, a, b, now, q);
    PongSettled(t, rs[a], a, b, now, q);
    TellsTable(t, rs[a := q], inbox, a, ads);
    ToldIsSaid(t, rs, rs[a := q], a, ads);
  }

  lemma HailedFacts(t: Topology, rs: Routers, inbox: Mail, a: nat, b: nat)
    requires Hailed(t, rs, inbox, a, b)
    ensures a in rs && (a, b) in t.port && t.port[(a, b)] in rs[a].ports && Consistent(rs[a]) && rs[a].id == a && a != b
    ensures Settled(t, a, rs[a]) && Compact(t) && Configured(t) && Link(t, a, b)
  {
  }
}
