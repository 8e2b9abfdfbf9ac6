/** What a route in a table stands for while no link dies: a walk that its routers back
    with costs that only fall. */
module Routes {
  import opened RouterTables
  import opened Topology

  type Routers = map<nat, Router>

  /** What is on its way to one router, by sender. */
  type Mail = map<nat, seq<Entry>>

  predicate Knows(rs: Routers, a: nat, d: nat) {
    a in rs && (d == a || d in rs[a].dv)
  }

  /** The cost router a has for d; nothing for itself. */
  function Dist(rs: Routers, a: nat, d: nat): nat
    requires Knows(rs, a, d)
  {
    if d == a then 0 else rs[a].dv[d].cost
  }

  /** Destinations are never lost, and costs only fall. */
  ghost predicate Improves(rs: Routers, later: Routers) {
    forall a, d :: Knows(rs, a, d) ==> Knows(later, a, d) && Dist(later, a, d) <= Dist(rs, a, d)
  }

  ghost predicate NoRepeats(w: seq<nat>) {
    forall i, j :: 0 <= i < j < |w| ==> w[i] != w[j]
  }

  /** Every walk that visits no router twice has a cost that fits into a packet. */
  ghost predicate Compact(t: Topology) {
    forall w :: IsWalk(t, w) && NoRepeats(w) ==> WalkCost(t, w) < INFINITY_COST
  }

  // ---------------------------------------------------------------- walks behind costs

  /** Every router on the walk after the first is at most as far from d as the walk says. */
  ghost predicate Supported(t: Topology, rs: Routers, w: seq<nat>, d: nat)
    requires IsWalk(t, w)
    decreases |w|
  {
    |w| > 1 ==> Knows(rs, w[1], d) && Dist(rs, w[1], d) <= WalkCost(t, w[1..]) && Supported(t, rs, w[1..], d)
  }

  /** The cost c from x to d is that of a walk without repetition that its routers support. */
  ghost predicate Traced(t: Topology, rs: Routers, x: nat, d: nat, c: nat) {
    exists w :: IsTrace(t, rs, w, x, d, c)
  }

  ghost predicate IsTrace(t: Topology, rs: Routers, w: seq<nat>, x: nat, d: nat, c: nat) {
    Joins(t, w, x, d) && NoRepeats(w) && WalkCost(t, w) == c && Supported(t, rs, w, d)
  }

  lemma {:induction false} SupportedNode(t: Topology, rs: Routers, w: seq<nat>, d: nat, i: nat)
    requires IsWalk(t, w) && Supported(t, rs, w, d) && 0 < i < |w|
    ensures Knows(rs, w[i], d) && Dist(rs, w[i], d) <= WalkCost(t, w)
    decreases i
  {
    hide Knows, Dist;
    if i <= 1 {
    } else {
      SupportedNode(t, rs, w[1..], d, i - 1);
    }
  }

  lemma {:induction false} SupportedKept(t: Topology, rs: Routers, later: Routers, w: seq<nat>, d: nat)
    requires IsWalk(t, w) && Supported(t, rs, w, d) && Improves(rs, later)
    ensures Supported(t, later, w, d)
    decreases |w|
  {
    hide Knows, Dist;
    if |w| <= 1 {
    } else {
      SupportedKept(t, rs, later, w[1..], d);
    }
  }

  lemma TracedKept(t: Topology, rs: Routers, later: Routers, x: nat, d: nat, c: nat)
    requires Traced(t, rs, x, d, c) && Improves(rs, later)
    ensures Traced(t, later, x, d, c)
  {
    hide Supported, Improves;
    var w :| IsTrace(t, rs, w, x, d, c);
    SupportedKept(t, rs, later, w, d);
    assert IsTrace(t, later, w, x, d, c);
  }

  lemma TracedFits(t: Topology, rs: Routers, x: nat, d: nat, c: nat)
    requires Traced(t, rs, x, d, c) && Compact(t)
    ensures c < INFINITY_COST
  {
  }

  lemma TracedLink(t: Topology, rs: Routers, a: nat, b: nat)
    requires Configured(t) && Link(t, a, b) && b in rs
    ensures Traced(t, rs, a, b, Weight(t, a, b))
  {
    var w := [a, b];
    assert w[1..] == [b];
    PrependCost(t, a, [b]);
    assert [a] + [b] == w;
    assert WalkCost(t, [b]) == 0;
    assert Supported(t, rs, [b], b);
    hide Configured;
    assert IsTrace(t, rs, w, a, b, Weight(t, a, b));
  }

  /** A router that does not yet have d at cost c is not on a walk of that cost, so the
      walk may start there. */
  lemma TracedStep(t: Topology, rs: Routers, r: nat, s: nat, d: nat, c: nat)
    requires Configured(t) && Link(t, r, s) && r != d
    requires Traced(t, rs, s, d, c) && Knows(rs, s, d) && Dist(rs, s, d) <= c
    requires Knows(rs, r, d) ==> Dist(rs, r, d) > c
    ensures Traced(t, rs, r, d, Weight(t, r, s) + c)
  {
    var w :| IsTrace(t, rs, w, s, d, c);
    forall i | 0 <= i < |w|
      ensures w[i] != r
    {
      if i > 0 {
        SupportedNode(t, rs, w, d, i);
      }
    }
    PrependCost(t, r, w);
    var v := [r] + w;
    assert v[1..] == w;
    hide Configured, Knows, Dist;
    assert Joins(t, v, r, d);
    assert Supported(t, rs, v, d);
    assert IsTrace(t, rs, v, r, d, Weight(t, r, s) + c);
  }

  // ---------------------------------------------------------------- good routes

  /** What hop and cost of a route from a to d promise: the next hop knows d, is nearer by
      the link in between, and will stay so when everything on its way has arrived. */
  ghost predicate Good(t: Topology, rs: Routers, inbox: Mail, a: nat, d: nat, hop: nat, cost: nat) {
    && d != a && Link(t, a, hop) && hop in inbox && Knows(rs, hop, d)
    && cost >= Weight(t, a, hop) + Dist(rs, hop, d)
    && (forall e <- inbox[hop] :: e.dest == d ==> cost >= Weight(t, a, hop) + e.cost)
    && Traced(t, rs, a, d, cost)
  }

  ghost predicate Routed(t: Topology, rs: Routers, inbox: Mail, a: nat) {
    a in rs && forall d :: d in rs[a].dv ==> Good(t, rs, inbox, a, d, rs[a].dv[d].nextHop, rs[a].dv[d].cost)
  }

  /** An entry that s may have sent. */
  ghost predicate Offered(t: Topology, rs: Routers, s: nat, e: Entry) {
    e.dest != s && Knows(rs, s, e.dest) && Dist(rs, s, e.dest) <= e.cost && Traced(t, rs, s, e.dest, e.cost)
  }

  /** Later entries for a destination are not dearer than earlier ones. */
  ghost predicate Falling(es: seq<Entry>) {
    forall i, j :: 0 <= i < j < |es| && es[i].dest == es[j].dest ==> es[j].cost <= es[i].cost
  }

  lemma GoodKept(t: Topology, rs: Routers, later: Routers, inbox: Mail, a: nat, d: nat, hop: nat, cost: nat)
    requires Good(t, rs, inbox, a, d, hop, cost) && Improves(rs, later)
    ensures Good(t, later, inbox, a, d, hop, cost)
  {
    TracedKept(t, rs, later, a, d, cost);
    hide Traced, Knows, Dist;
  }

  lemma OfferedKept(t: Topology, rs: Routers, later: Routers, s: nat, e: Entry)
    requires Offered(t, rs, s, e) && Improves(rs, later)
    ensures Offered(t, later, s, e)
  {
    TracedKept(t, rs, later, s, e.dest, e.cost);
    hide Traced, Knows, Dist;
  }

  lemma ImprovesTransitive(x: Routers, y: Routers, z: Routers)
    requires Improves(x, y) && Improves(y, z)
    ensures Improves(x, z)
  {
  }

  /** A router may replace its table by one that is nowhere dearer and only has good routes. */
  lemma Change(t: Topology, rs: Routers, inbox: Mail, a: nat, q: Router)
    requires a in rs
    requires forall d :: d in rs[a].dv ==> d in q.dv && q.dv[d].cost <= rs[a].dv[d].cost
    requires forall d :: d in q.dv ==> Good(t, rs, inbox, a, d, q.dv[d].nextHop, q.dv[d].cost)
    ensures Improves(rs, rs[a := q]) && Routed(t, rs[a := q], inbox, a)
  {
    hide Good;
    var later := rs[a := q];
    forall d | d in q.dv
      ensures Good(t, later, inbox, a, d, q.dv[d].nextHop, q.dv[d].cost)
    {
      GoodKept(t, rs, later, inbox, a, d, q.dv[d].nextHop, q.dv[d].cost);
    }
  }

  // ---------------------------------------------------------------- neighbours

  /** What a router knows of a neighbour: its link, and a route that is not dearer. */
  ghost predicate Near(t: Topology, a: nat, r: Router, b: nat)
    requires b in r.neighbors
  {
    && Link(t, a, b) && (a, b) in t.port && r.neighbors[b] == Neighbor(Weight(t, a, b), t.port[(a, b)])
    && b in r.dv && r.dv[b].cost <= Weight(t, a, b) && Open(t, a, b, r.ports)
  }

  /** A port remembers the round-trip time of its link, once measured. */
  ghost predicate Measured(t: Topology, a: nat, r: Router, b: nat) {
    Link(t, a, b) ==>
      && (a, b) in t.port && t.port[(a, b)] in r.ports
      && r.ports[t.port[(a, b)]].cost == (if b in r.neighbors then Weight(t, a, b) else 0)
  }

  ghost predicate Settled(t: Topology, a: nat, r: Router) {
    && Consistent(r) && r.id == a && r.numPorts == t.numPorts
    && (forall b :: b in r.neighbors ==> Near(t, a, r, b))
    && (forall b :: Measured(t, a, r, b))
  }
}
