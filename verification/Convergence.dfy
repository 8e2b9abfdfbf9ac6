/** While no link dies, rounds of updates make every cost the length of a shortest walk. */
module Convergence {
  import opened RouterTables
  import opened Topology
  import opened Fifo
  import opened Routes
  import opened RouteSteps
  import opened LoopFree
  import opened Words

  /** Every router has measured every link. */
  ghost predicate Acquainted(t: Topology, n: Net) {
    forall a, b :: Link(t, a, b) ==> a in n.routers && b in n.routers[a].neighbors
  }

  /** No cost is above that of a walk of at most k + 1 links. */
  ghost predicate Covers(t: Topology, n: Net, k: nat) {
    forall w :: IsWalk(t, w) && |w| <= k + 2 && w[0] in t.nodes ==> Covered(t, n, w)
  }

  ghost predicate Covered(t: Topology, n: Net, w: seq<nat>)
    requires IsWalk(t, w)
  {
    Knows(n.routers, w[0], w[|w| - 1]) && Dist(n.routers, w[0], w[|w| - 1]) <= WalkCost(t, w)
  }

  // ---------------------------------------------------------------- what only grows

  ghost predicate Grows(n: Net, n2: Net) {
    && Improves(n.routers, n2.routers)
    && (forall l :: l in n.log ==> l in n2.log && n.log[l] <= n2.log[l])
    && (forall a, b :: a in n.routers && b in n.routers[a].neighbors ==>
          a in n2.routers && b in n2.routers[a].neighbors)
  }

  lemma GrowsTransitive(x: Net, y: Net, z: Net)
    requires Grows(x, y) && Grows(y, z)
    ensures Grows(x, z)
  {
  }

  lemma PostGrows(t: Topology, n: Net, a: nat, q: Router, packets: seq<seq<Entry>>)
    requires a in n.routers && Improves(n.routers, n.routers[a := q]) && n.routers[a].neighbors.Keys <= q.neighbors.Keys
    ensures Grows(n, Post(t, n, a, q, packets))
  {
  }

  lemma PongMeets(r: Router, port: nat, source: nat, sentAt: nat, now: nat)
    requires port in r.ports
    ensures r.neighbors.Keys <= RecvPong(r, port, source, sentAt, now).0.neighbors.Keys
  {
  }

  lemma PacketMeets(r: Router, port: nat, source: nat, entries: seq<Entry>, now: nat, junk: nat)
    ensures r.neighbors.Keys <= RecvDV(r, port, source, entries, now, junk).0.neighbors.Keys
  {
  }

  lemma NextGrows(t: Topology, n: Net, e: Event)
    requires Configured(t) && Compact(t) && Inv(t, n) && Enabled(t, n, e)
    ensures Grows(n, Next(t, n, e))
  {
    hide Improves, Post, Packets, Inv, Listing, Costs, RecvPong, RecvDV, Configured, Compact, Link, Weight, Grows;
    NextKeeps(t, n, e);
    match e
    case Pong(a, b, sentAt, now) =>
      var (q, ads) := RecvPong(n.routers[a], t.port[(a, b)], b, sentAt, now);
      PostRouters(t, n, a, q, Packets(ads));
      PongMeets(n.routers[a], t.port[(a, b)], b, sentAt, now);
      PostGrows(t, n, a, q, Packets(ads));
    case Update(a) =>
      var packets := [Listing(Costs(n.routers[a].dv))];
      PostRouters(t, n, a, n.routers[a], packets);
      PostGrows(t, n, a, n.routers[a], packets);
    case Deliver(s, r, now) =>
      var (q, ads) := RecvDV(n.routers[r], t.port[(r, s)], s, Head(n, s, r), now, 0);
      PostRouters(t, Pop(n, s, r), r, q, Packets(ads));
      PacketMeets(n.routers[r], t.port[(r, s)], s, Head(n, s, r), now, 0);
      PostGrows(t, Pop(n, s, r), r, q, Packets(ads));
      PopGrows(n, s, r);
      GrowsTransitive(n, Pop(n, s, r), Next(t, n, e));
    case Lose(s, r) =>
      PopGrows(n, s, r);
  }

  lemma PopGrows(n: Net, s: nat, r: nat)
    requires Waiting(n, s, r)
    ensures Grows(n, Pop(n, s, r))
  {
  }

  lemma PostRouters(t: Topology, n: Net, a: nat, q: Router, packets: seq<seq<Entry>>)
    ensures Post(t, n, a, q, packets).routers == n.routers[a := q]
  {
  }

  lemma {:induction false} RunGrows(t: Topology, states: seq<Net>, events: seq<Event>, i: nat, j: nat)
    requires Configured(t) && Compact(t) && Run(t, states, events) && i <= j < |states|
    ensures Grows(states[i], states[j])
    decreases j - i
  {
    hide Inv, Next, Enabled, Init, Configured, Compact, Grows;
    if i == j {
      GrowsItself(states[i]);
    } else {
      RunGrows(t, states, events, i, j - 1);
      RunInv(t, states, events, j - 1);
      NextGrows(t, states[j - 1], events[j - 1]);
      GrowsTransitive(states[i], states[j - 1], states[j]);
    }
  }

  lemma GrowsItself(n: Net)
    ensures Grows(n, n)
  {
  }

  // ---------------------------------------------------------------- rounds

  /** s sends its table to r at step u, and that very packet is delivered at step v. */
  ghost predicate Exchange(states: seq<Net>, events: seq<Event>, u: nat, v: nat, s: nat, r: nat) {
    && u < v < |events| && |states| == |events| + 1
    && events[u] == Update(s) && events[v].Deliver? && events[v].from == s && events[v].to == r
    && (s, r) in states[u].log && (s, r) in states[v].taken
    && states[v].taken[(s, r)] == |states[u].log[(s, r)]|
  }

  /** Between i and j, every link carries a table in each direction, and delivers it. */
  ghost predicate Round(t: Topology, states: seq<Net>, events: seq<Event>, i: nat, j: nat) {
    i <= j && forall s, r :: Link(t, s, r) ==> Exchanges(states, events, i, j, s, r)
  }

  ghost predicate Exchanges(states: seq<Net>, events: seq<Event>, i: nat, j: nat, s: nat, r: nat) {
    exists u: nat, v: nat :: i <= u && v < j && Exchange(states, events, u, v, s, r)
  }

  /** An update is appended to the log of every measured link. */
  lemma UpdateLogs(t: Topology, n: Net, s: nat, r: nat)
    requires Inv(t, n) && Enabled(t, n, Update(s)) && Acquainted(t, n) && Link(t, s, r)
    ensures (s, r) in n.log && (s, r) in Next(t, n, Update(s)).log
    ensures Next(t, n, Update(s)).log[(s, r)] == n.log[(s, r)] + [Listing(Costs(n.routers[s].dv))]
  {
    hide Routed, Queued, Inbox, Consistent, Listing, Costs, Measured;
    assert Near(t, s, n.routers[s], r);
  }

  /** The packet delivered at the end of an exchange is the one sent at its start. */
  lemma ExchangeHead(t: Topology, states: seq<Net>, events: seq<Event>, u: nat, v: nat, s: nat, r: nat)
    requires Configured(t) && Compact(t) && Run(t, states, events) && Exchange(states, events, u, v, s, r)
    requires Link(t, s, r) && Acquainted(t, states[u])
    ensures Waiting(states[v], s, r) && Head(states[v], s, r) == Listing(Costs(states[u].routers[s].dv))
  {
    hide Configured, Compact, Acquainted, Next, Listing, Costs, Init, Link, Improves;
    RunInv(t, states, events, u);
    assert Enabled(t, states[u], events[u]) && states[u + 1] == Next(t, states[u], events[u]);
    assert Enabled(t, states[v], events[v]);
    UpdateLogs(t, states[u], s, r);
    RunGrows(t, states, events, u + 1, v);
    assert states[u + 1].log[(s, r)] <= states[v].log[(s, r)];
  }

  lemma ExchangeHears(t: Topology, states: seq<Net>, events: seq<Event>, u: nat, v: nat, s: nat, r: nat, e: Entry)
    requires Configured(t) && Compact(t) && Run(t, states, events) && Exchange(states, events, u, v, s, r)
    requires Link(t, s, r) && Acquainted(t, states[u]) && s in states[u].routers
    requires e in Listing(Costs(states[u].routers[s].dv))
    ensures Heard(t, states[v + 1].routers, r, s, e)
  {
    hide Configured, Compact, Acquainted, Listing, Costs, Init, Link, Inv, Heard, Packets, RecvDV, Steps;
    ExchangeHead(t, states, events, u, v, s, r);
    RunInv(t, states, events, v);
    var n, now := states[v], events[v].now;
    assert Enabled(t, n, events[v]) && states[v + 1] == Next(t, n, events[v]);
    DeliverSteps(t, n, s, r, now);
    var (q, ads) := RecvDV(n.routers[r], t.port[(r, s)], s, Head(n, s, r), now, 0);
    PostRouters(t, Pop(n, s, r), r, q, Packets(ads));
  }

  // ---------------------------------------------------------------- one more link

  lemma AcquaintedCovers(t: Topology, n: Net)
    requires Configured(t) && Inv(t, n) && Acquainted(t, n)
    ensures Covers(t, n, 0)
  {
    hide Routed, Queued, Inbox, Consistent, Measured, Configured;
    forall w | IsWalk(t, w) && |w| <= 2 && w[0] in t.nodes
      ensures Covered(t, n, w)
    {
      if |w| == 2 {
        assert Link(t, w[0], w[1]);
        LinkCovered(t, n, w);
      }
    }
  }

  /** A measured neighbour is known at the cost of its link, or less. */
  lemma LinkCovered(t: Topology, n: Net, w: seq<nat>)
    requires Inv(t, n) && Acquainted(t, n) && IsWalk(t, w) && |w| >= 2 && w[0] in n.routers && w[|w| - 1] == w[1]
    ensures Covered(t, n, w)
  {
    hide Routed, Queued, Inbox, Consistent, Measured;
    assert Link(t, w[0], w[1]);
    assert Near(t, w[0], n.routers[w[0]], w[1]);
  }

  lemma CoveredLater(t: Topology, n: Net, n2: Net, w: seq<nat>)
    requires IsWalk(t, w) && Covered(t, n, w) && Grows(n, n2)
    ensures Covered(t, n2, w)
  {
  }

  lemma AcquaintedLater(t: Topology, n: Net, n2: Net)
    requires Acquainted(t, n) && Grows(n, n2)
    ensures Acquainted(t, n2)
  {
  }

  /** A walk is covered once its first router heard what covers the rest of it. */
  lemma WalkHeard(t: Topology, n: Net, n2: Net, w: seq<nat>)
    requires IsWalk(t, w) && |w| >= 2 && IsWalk(t, w[1..]) && Inv(t, n) && Compact(t) && Covered(t, n, w[1..])
    requires w[0] in n2.routers && w[1] in n.routers && w[1] != w[|w| - 1]
    requires forall e <- Listing(Costs(n.routers[w[1]].dv)) :: Heard(t, n2.routers, w[0], w[1], e)
    ensures Covered(t, n2, w)
  {
    hide Listing, Improves, Compact, Inv, U16;
    var s, d := w[1], w[|w| - 1];
    assert w[1..][|w| - 2] == d;
    var c := n.routers[s].dv[d].cost;
    KnownFits(t, n, s, d);
    assert Costs(n.routers[s].dv)[d] == c;
    ListingComplete(Costs(n.routers[s].dv), d);
    assert Heard(t, n2.routers, w[0], s, Entry(d, c));
  }

  lemma KnownFits(t: Topology, n: Net, a: nat, d: nat)
    requires Inv(t, n) && Compact(t) && a in n.routers && d in n.routers[a].dv
    ensures n.routers[a].dv[d].cost < INFINITY_COST
  {
    hide Settled, Queued, Inbox, Compact, Traced;
    assert Good(t, n.routers, Inbox(t, n, a), a, d, n.routers[a].dv[d].nextHop, n.routers[a].dv[d].cost);
    TracedFits(t, n.routers, a, d, n.routers[a].dv[d].cost);
  }

  lemma RoundCoversWalk(t: Topology, states: seq<Net>, events: seq<Event>, i: nat, j: nat, k: nat, w: seq<nat>)
    requires Configured(t) && Compact(t) && Run(t, states, events) && i <= j < |states|
    requires Acquainted(t, states[i]) && Covers(t, states[i], k) && Round(t, states, events, i, j)
    requires IsWalk(t, w) && |w| <= k + 3 && w[0] in t.nodes
    ensures Covered(t, states[j], w)
  {
    hide Configured, Compact, Run, Acquainted, Inv, Grows, Covered, Heard, Next, Listing, Costs;
    RunInv(t, states, events, j);
    RunGrows(t, states, events, i, j);
    AcquaintedLater(t, states[i], states[j]);
    InvNodes(t, states[j]);
    if |w| <= k + 2 {
      CoveredLater(t, states[i], states[j], w);
    } else if w[1] == w[|w| - 1] {
      LinkCovered(t, states[j], w);
    } else {
      assert Link(t, w[0], w[1]);
      LinkBack(t, w[0], w[1]);
      TailIsWalk(t, w);
      var u: nat, v: nat :| i <= u && v < j && Exchange(states, events, u, v, w[1], w[0]);
      ExchangeCovers(t, states, events, i, u, v, w);
      RunGrows(t, states, events, v + 1, j);
      CoveredLater(t, states[v + 1], states[j], w);
    }
  }

  lemma TailIsWalk(t: Topology, w: seq<nat>)
    requires IsWalk(t, w) && |w| >= 2
    ensures IsWalk(t, w[1..])
  {
  }

  lemma LinkBack(t: Topology, a: nat, b: nat)
    requires Configured(t) && Link(t, a, b)
    ensures Link(t, b, a) && a in t.nodes && b in t.nodes
  {
  }

  lemma InvNodes(t: Topology, n: Net)
    requires Inv(t, n)
    ensures n.routers.Keys == t.nodes
  {
  }

  lemma ExchangeCovers(t: Topology, states: seq<Net>, events: seq<Event>, i: nat, u: nat, v: nat, w: seq<nat>)
    requires Configured(t) && Compact(t) && Run(t, states, events) && i <= u < |states|
    requires IsWalk(t, w) && |w| >= 2 && IsWalk(t, w[1..]) && w[1] != w[|w| - 1] && Link(t, w[1], w[0])
    requires Acquainted(t, states[i]) && Covered(t, states[i], w[1..]) && Exchange(states, events, u, v, w[1], w[0])
    ensures Covered(t, states[v + 1], w)
  {
    hide Configured, Compact, Run, Acquainted, Inv, Grows, Covered, Heard, Listing, Costs;
    RunGrows(t, states, events, i, u);
    RunInv(t, states, events, u);
    RunInv(t, states, events, v + 1);
    InvNodes(t, states[u]);
    InvNodes(t, states[v + 1]);
    LinkBack(t, w[1], w[0]);
    AcquaintedLater(t, states[i], states[u]);
    CoveredLater(t, states[i], states[u], w[1..]);
    forall e <- Listing(Costs(states[u].routers[w[1]].dv))
      ensures Heard(t, states[v + 1].routers, w[0], w[1], e)
    {
      ExchangeHears(t, states, events, u, v, w[1], w[0], e);
    }
    WalkHeard(t, states[u], states[v + 1], w);
  }

  /** A round covers walks with one more link. */
  lemma RoundCovers(t: Topology, states: seq<Net>, events: seq<Event>, i: nat, j: nat, k: nat)
    requires Configured(t) && Compact(t) && Run(t, states, events) && i <= j < |states|
    requires Acquainted(t, states[i]) && Covers(t, states[i], k) && Round(t, states, events, i, j)
    ensures Covers(t, states[j], k + 1)
  {
    hide Configured, Compact, Run, Acquainted, Round, Covered;
    forall w | IsWalk(t, w) && |w| <= k + 3 && w[0] in t.nodes
      ensures Covered(t, states[j], w)
    {
      RoundCoversWalk(t, states, events, i, j, k, w);
    }
  }

  /** Rounds between the given moments, starting when every link is measured. */
  ghost predicate Rounds(t: Topology, states: seq<Net>, events: seq<Event>, marks: seq<nat>) {
    && marks != [] && (forall k :: 0 <= k < |marks| ==> marks[k] < |states|) && Acquainted(t, states[marks[0]])
    && (forall k :: 0 <= k < |marks| - 1 ==> Round(t, states, events, marks[k], marks[k + 1]))
  }

  /** After k rounds every cost is at most that of any walk of at most k + 1 links. */
  lemma {:induction false} RoundsCover(t: Topology, states: seq<Net>, events: seq<Event>, marks: seq<nat>, k: nat)
    requires Configured(t) && Compact(t) && Run(t, states, events) && Rounds(t, states, events, marks) && k < |marks|
    ensures Covers(t, states[marks[k]], k) && Acquainted(t, states[marks[k]])
  {
    hide Configured, Compact, Run, Acquainted, Exchanges, Covers, Inv, Grows;
    if k == 0 {
      RunInv(t, states, events, marks[0]);
      AcquaintedCovers(t, states[marks[0]]);
    } else {
      RoundsCover(t, states, events, marks, k - 1);
      assert Round(t, states, events, marks[k - 1], marks[k]);
      RoundCovers(t, states, events, marks[k - 1], marks[k], k - 1);
      RunGrows(t, states, events, marks[k - 1], marks[k]);
      AcquaintedLater(t, states[marks[k - 1]], states[marks[k]]);
    }
  }

  // ---------------------------------------------------------------- shortest walks

  /** Any walk can be shortened to one that repeats no router. */
  lemma {:induction false} Shorten(t: Topology, w: seq<nat>) returns (v: seq<nat>)
    requires Configured(t) && IsWalk(t, w)
    ensures Joins(t, v, w[0], w[|w| - 1]) && NoRepeats(v) && WalkCost(t, v) <= WalkCost(t, w)
    decreases |w|
  {
    hide Configured;
    if |w| == 1 {
      v := w;
    } else {
      TailIsWalk(t, w);
      assert Link(t, w[0], w[1]);
      v := Shorten(t, w[1..]);
      if w[0] in v {
        var i :| 0 <= i < |v| && v[i] == w[0];
        SuffixCost(t, v, i);
        v := v[i..];
      } else {
        PrependCost(t, w[0], v);
        v := [w[0]] + v;
      }
    }
  }

  lemma {:induction false} SuffixCost(t: Topology, w: seq<nat>, i: nat)
    requires IsWalk(t, w) && i < |w|
    ensures IsWalk(t, w[i..]) && WalkCost(t, w[i..]) <= WalkCost(t, w)
    decreases |w|
  {
    if i > 0 {
      TailIsWalk(t, w);
      SuffixCost(t, w[1..], i - 1);
      assert w[1..][i - 1..] == w[i..];
    } else {
      assert w[i..] == w;
    }
  }

  /** A walk that repeats no router has at most as many as there are. */
  lemma {:induction false} NoRepeatsFits(w: seq<nat>, nodes: set<nat>)
    requires NoRepeats(w) && forall x <- w :: x in nodes
    ensures |w| <= |nodes|
    decreases |w|
  {
    if w == [] {
    } else {
      var rest := w[1..];
      assert forall x <- rest :: x in nodes - {w[0]};
      NoRepeatsFits(rest, nodes - {w[0]});
    }
  }

  lemma WalkInside(t: Topology, w: seq<nat>)
    requires Configured(t) && IsWalk(t, w) && w[0] in t.nodes
    ensures forall x <- w :: x in t.nodes
  {
    forall x <- w
      ensures x in t.nodes
    {
      var i :| 0 <= i < |w| && w[i] == x;
      if i > 0 {
        assert Link(t, w[i - 1], w[i]);
      }
    }
  }

  /** c is the length of a shortest walk from a to d. */
  ghost predicate IsDistance(t: Topology, a: nat, d: nat, c: nat) {
    && (exists w :: Joins(t, w, a, d) && WalkCost(t, w) == c)
    && (forall w :: Joins(t, w, a, d) ==> c <= WalkCost(t, w))
  }

  /** Covering the walks that repeat no router covers all walks. */
  lemma CoversAll(t: Topology, n: Net, k: nat, w: seq<nat>)
    requires Configured(t) && Covers(t, n, k) && |t.nodes| <= k + 2 && IsWalk(t, w) && w[0] in t.nodes
    ensures Covered(t, n, w)
  {
    hide Configured, Knows, Dist;
    var v := Shorten(t, w);
    WalkInside(t, v);
    NoRepeatsFits(v, t.nodes);
    assert Covered(t, n, v);
  }

  /** After as many rounds as a walk without repetition can need, and ever after, every
      router knows exactly the routers that can be reached ... */
  lemma ReachableIsKnown(t: Topology, states: seq<Net>, events: seq<Event>, marks: seq<nat>, j: nat, a: nat, d: nat)
    requires Configured(t) && Compact(t) && Run(t, states, events) && Rounds(t, states, events, marks)
    requires |t.nodes| <= |marks| + 1 && marks[|marks| - 1] <= j < |states|
    requires a in states[j].routers && a != d
    ensures d in states[j].routers[a].dv <==> exists w :: Joins(t, w, a, d)
  {
    hide Configured, Compact, Run, Covers, Inv, Grows, IsWalk, WalkCost, IsPath, NoRepeats, Rounds;
    forall w | Joins(t, w, a, d)
      ensures d in states[j].routers[a].dv
    {
      JoinsWalk(t, w, a, d);
      RoundsCoverWalk(t, states, events, marks, j, w);
    }
    if d in states[j].routers[a].dv {
      var w := ForwardingReaches(t, states, events, j, a, d);
    }
  }

  lemma JoinsWalk(t: Topology, w: seq<nat>, a: nat, d: nat)
    requires Joins(t, w, a, d)
    ensures IsWalk(t, w) && w[0] == a && w[|w| - 1] == d
  {
  }

  /** ... at exactly their distance. */
  lemma CostsAreExact(t: Topology, states: seq<Net>, events: seq<Event>, marks: seq<nat>, j: nat, a: nat, d: nat)
    requires Configured(t) && Compact(t) && Run(t, states, events) && Rounds(t, states, events, marks)
    requires |t.nodes| <= |marks| + 1 && marks[|marks| - 1] <= j < |states|
    requires a in states[j].routers && d in states[j].routers[a].dv
    ensures IsDistance(t, a, d, states[j].routers[a].dv[d].cost)
  {
    hide Configured, Compact, Run, Covers, Inv, Grows, IsWalk, WalkCost, IsPath, NoRepeats, Rounds;
    KnownIsOther(t, states, events, j, a, d);
    forall w | Joins(t, w, a, d)
      ensures states[j].routers[a].dv[d].cost <= WalkCost(t, w)
    {
      JoinsWalk(t, w, a, d);
      RoundsCoverWalk(t, states, events, marks, j, w);
    }
    var w := ForwardingReaches(t, states, events, j, a, d);
  }

  lemma KnownIsOther(t: Topology, states: seq<Net>, events: seq<Event>, j: nat, a: nat, d: nat)
    requires Configured(t) && Compact(t) && Run(t, states, events) && j < |states|
    requires a in states[j].routers && d in states[j].routers[a].dv
    ensures a != d
  {
    hide Configured, Compact, Run, Inv;
    RunInv(t, states, events, j);
    SettledAt(t, states[j], a);
  }

  lemma RoundsCoverWalk(t: Topology, states: seq<Net>, events: seq<Event>, marks: seq<nat>, j: nat, w: seq<nat>)
    requires Configured(t) && Compact(t) && Run(t, states, events) && Rounds(t, states, events, marks)
    requires |t.nodes| <= |marks| + 1 && marks[|marks| - 1] <= j < |states|
    requires IsWalk(t, w) && w[0] in states[j].routers
    ensures Covered(t, states[j], w)
  {
    hide Configured, Compact, Run, Covers, Inv, Grows, Rounds, Acquainted;
    var k := |marks| - 1;
    RoundsFit(t, states, events, marks, k);
    RoundsCover(t, states, events, marks, k);
    RunInv(t, states, events, j);
    InvNodes(t, states[j]);
    RunGrows(t, states, events, marks[k], j);
    CoversAll(t, states[marks[k]], k, w);
    CoveredLater(t, states[marks[k]], states[j], w);
  }

  lemma RoundsFit(t: Topology, states: seq<Net>, events: seq<Event>, marks: seq<nat>, k: int)
    requires Rounds(t, states, events, marks) && k == |marks| - 1
    ensures 0 <= k && marks[k] < |states|
  {
  }

  /** From then on data travels along shortest walks. */
  lemma DataTravelsShortest(t: Topology, states: seq<Net>, events: seq<Event>, marks: seq<nat>, j: nat, a: nat, d: nat)
    returns (w: seq<nat>)
    requires Configured(t) && Compact(t) && Run(t, states, events) && Rounds(t, states, events, marks)
    requires |t.nodes| <= |marks| + 1 && marks[|marks| - 1] <= j < |states|
    requires a in states[j].routers && d in states[j].routers[a].dv
    ensures Joins(t, w, a, d) && IsPath(t, states[j], w, d)
    ensures forall v :: Joins(t, v, a, d) ==> WalkCost(t, w) <= WalkCost(t, v)
  {
    hide Configured, Compact, Run, Rounds, IsWalk, WalkCost, IsPath, NoRepeats;
    CostsAreExact(t, states, events, marks, j, a, d);
    w := ForwardingReaches(t, states, events, j, a, d);
  }
}
