/** Costs are never below the true shortest distance: routers exchange distance vectors
    over a network that may lose, repeat and reorder them, where links die and recover
    and routes expire at any time. */
module Soundness {
  import opened RouterTables
  import opened RouterInvariant
  import opened Topology
  import opened Words

  /** A distance-vector packet in flight. */
  datatype Message = Message(from: nat, to: nat, entries: seq<Entry>)

  /** Messages are never forgotten: each may be delivered at any later time, any number
      of times, or never, as on a link that died. */
  datatype Network = Network(routers: map<nat, Router>, flight: set<Message>)

  datatype Event =
    | Pong(at: nat, from: nat, sentAt: nat, now: nat)
    | Deliver(m: Message, now: nat, junk: nat)
    | Update(at: nat)
    | Expire(at: nat, now: nat, ads: seq<Entry>)

  ghost predicate Init(t: Topology, n: Network) {
    n.routers.Keys == t.nodes && n.flight == {} && forall a :: a in t.nodes ==> n.routers[a] == Start(a, t.numPorts)
  }

  /** sendDVUpdate: one packet to the router at the other end of each connected port. */
  function Emit(t: Topology, a: nat, q: Router, ads: seq<Entry>): set<Message> {
    set x | x in t.nodes && Link(t, a, x) && Open(t, a, x, q.ports) :: Message(a, x, ads)
  }

  function EmitSome(t: Topology, a: nat, q: Router, ads: seq<Entry>): set<Message> {
    if ads == [] then {} else Emit(t, a, q, ads)
  }

  /** When an event can happen. Round-trip times are those of the links; no sum that a
      handler forms reaches INFINITY_COST; a packet that introduces an unknown
      neighbour lists this router. */
  ghost predicate Enabled(t: Topology, n: Network, e: Event) {
    match e
    case Pong(a, b, sentAt, now) =>
      && Link(t, a, b) && a in n.routers && (a, b) in t.port && t.port[(a, b)] in n.routers[a].ports
      && now == sentAt + Weight(t, a, b) && Weight(t, a, b) < INFINITY_COST
      && forall d :: d in n.routers[a].dv && n.routers[a].dv[d].nextHop == b ==>
           n.routers[a].dv[d].cost + Weight(t, a, b) < INFINITY_COST
    case Deliver(m, now, junk) =>
      && m in n.flight && m.to in n.routers && Link(t, m.to, m.from) && (m.to, m.from) in t.port
      && (m.from in n.routers[m.to].neighbors || exists x <- m.entries :: x.dest == m.to)
      && forall x <- m.entries :: x.cost != INFINITY_COST ==>
           x.cost + Met(t, n, m, junk).neighbors[m.from].cost < INFINITY_COST
    case Update(a) => a in n.routers
    case Expire(a, now, ads) => a in n.routers && Advertises(ads, n.routers[a], now)
  }

  /** The receiver of a message, with the sender among its neighbours. */
  function Met(t: Topology, n: Network, m: Message, junk: nat): (r: Router)
    requires m.to in n.routers && (m.to, m.from) in t.port
    ensures m.from in r.neighbors
  {
    Introduce(n.routers[m.to], t.port[(m.to, m.from)], m.from, m.entries, junk)
  }

  ghost function Next(t: Topology, n: Network, e: Event): Network
    requires Enabled(t, n, e)
  {
    match e
    case Pong(a, b, sentAt, now) =>
      var (q, ads) := RecvPong(n.routers[a], t.port[(a, b)], b, sentAt, now);
      Network(n.routers[a := q], n.flight + EmitSome(t, a, q, ads))
    case Deliver(m, now, junk) =>
      var (q, ads) := RecvDV(n.routers[m.to], t.port[(m.to, m.from)], m.from, m.entries, now, junk);
      Network(n.routers[m.to := q], n.flight + EmitSome(t, m.to, q, ads))
    case Update(a) =>
      n.(flight := n.flight + Emit(t, a, n.routers[a], Listing(Costs(n.routers[a].dv))))
    case Expire(a, now, ads) =>
      var q := Refresh(n.routers[a], now);
      Network(n.routers[a := q], n.flight + EmitSome(t, a, q, ads))
  }

  ghost predicate Run(t: Topology, states: seq<Network>, events: seq<Event>) {
    && |states| == |events| + 1 && Init(t, states[0])
    && forall i :: 0 <= i < |events| ==>
         Enabled(t, states[i], events[i]) && states[i + 1] == Next(t, states[i], events[i])
  }

  // ---------------------------------------------------------------- the invariant

  /** An advertised cost is infinite or not below the distance. */
  ghost predicate SoundAds(t: Topology, a: nat, ads: seq<Entry>) {
    forall e <- ads :: e.cost <= INFINITY_COST && (e.cost == INFINITY_COST || Within(t, a, e.dest, e.cost))
  }

  ghost predicate SoundTable(t: Topology, a: nat, dv: map<nat, Cell>) {
    forall d :: d in dv ==> dv[d].cost <= INFINITY_COST && Within(t, a, d, dv[d].cost)
  }

  ghost predicate SoundNeighbors(t: Topology, a: nat, neighbors: map<nat, Neighbor>) {
    forall s :: s in neighbors ==>
      Link(t, a, s) && neighbors[s].cost <= INFINITY_COST && Within(t, a, s, neighbors[s].cost)
  }

  /** A port remembers the round-trip time of its link, or none. */
  ghost predicate SoundPorts(t: Topology, a: nat, ports: map<nat, Port>) {
    forall p :: p in ports ==> ports[p].cost == 0 || PortOfLink(t, a, p, ports[p].cost)
  }

  ghost predicate PortOfLink(t: Topology, a: nat, p: nat, cost: nat) {
    exists b: nat :: Link(t, a, b) && (a, b) in t.port && t.port[(a, b)] == p && cost == Weight(t, a, b)
  }

  ghost predicate SoundRouter(t: Topology, a: nat, r: Router) {
    && Consistent(r) && r.id == a && r.numPorts == t.numPorts
    && SoundTable(t, a, r.dv) && SoundNeighbors(t, a, r.neighbors) && SoundPorts(t, a, r.ports)
  }

  ghost predicate Sound(t: Topology, n: Network) {
    && n.routers.Keys == t.nodes
    && (forall a :: a in n.routers ==> SoundRouter(t, a, n.routers[a]))
    && (forall m <- n.flight :: SoundAds(t, m.from, m.entries))
  }

  // ---------------------------------------------------------------- distance vectors

  lemma JudgeSound(t: Topology, r: Router, source: nat, e: Entry)
    requires SoundTable(t, r.id, r.dv) && SoundNeighbors(t, r.id, r.neighbors) && source in r.neighbors
    requires e.cost == INFINITY_COST || Within(t, source, e.dest, e.cost)
    requires e.cost != INFINITY_COST ==> e.cost + r.neighbors[source].cost < INFINITY_COST
    ensures var v := Judge(r, source, e);
      && (v.Take? ==> v.cost <= INFINITY_COST && Within(t, r.id, e.dest, v.cost))
      && (v.Keep? && v.echoes > 0 ==> e.dest in r.dv)
  {
    if e.cost != INFINITY_COST {
      WithinConcat(t, r.id, source, e.dest, r.neighbors[source].cost, e.cost);
    }
    hide Within;
  }

  lemma AdvertsSound(t: Topology, r: Router, d: nat, v: Verdict, now: nat)
    requires SoundTable(t, r.id, r.dv) && (v.Keep? && v.echoes > 0 ==> d in r.dv)
    requires v.Take? ==> v.cost <= INFINITY_COST && Within(t, r.id, d, v.cost)
    ensures SoundTable(t, r.id, Apply(r, d, v, now).dv) && SoundAds(t, r.id, Adverts(r, d, v))
  {
  }

  lemma {:induction false} RelaxSound(t: Topology, r: Router, source: nat, entries: seq<Entry>, now: nat)
    requires SoundTable(t, r.id, r.dv) && SoundNeighbors(t, r.id, r.neighbors) && source in r.neighbors
    requires SoundAds(t, source, entries)
    requires forall e <- entries :: e.cost != INFINITY_COST ==> e.cost + r.neighbors[source].cost < INFINITY_COST
    ensures var (q, ads) := Relax(r, source, entries, now);
      SoundTable(t, r.id, q.dv) && SoundAds(t, r.id, ads)
  {
    hide Judge, Apply, Adverts, Within;
    if entries == [] {
    } else {
      var n := |entries| - 1;
      RelaxSound(t, r, source, entries[..n], now);
      var u := Relax(r, source, entries[..n], now).0;
      var e := entries[n];
      assert e in entries;
      JudgeSound(t, u, source, e);
      AdvertsSound(t, u, e.dest, Judge(u, source, e), now);
    }
  }

  /** A first-contact packet lists the distance back, which is the distance there. */
  lemma {:induction false} ListedIsSound(t: Topology, a: nat, source: nat, entries: seq<Entry>, junk: nat)
    requires Configured(t) && Link(t, a, source) && Weight(t, a, source) <= INFINITY_COST
    requires SoundAds(t, source, entries) && exists x <- entries :: x.dest == a
    ensures ListedCost(entries, a, junk) <= INFINITY_COST && Within(t, a, source, ListedCost(entries, a, junk))
  {
    if entries[0].dest == a {
      if entries[0].cost == INFINITY_COST {
        WithinLink(t, a, source);
        WithinMore(t, a, source, Weight(t, a, source), INFINITY_COST);
      } else {
        WithinSymmetric(t, source, a, entries[0].cost);
      }
    } else {
      assert exists x <- entries[1..] :: x.dest == a;
      ListedIsSound(t, a, source, entries[1..], junk);
    }
    hide Within;
  }

  /** Round-trip times fit into a packet. */
  ghost predicate Modest(t: Topology) {
    forall a, b :: Link(t, a, b) ==> Weight(t, a, b) < INFINITY_COST
  }

  lemma DeliverSound(t: Topology, a: nat, r: Router, source: nat, entries: seq<Entry>, now: nat, junk: nat)
    requires Configured(t) && Modest(t) && SoundRouter(t, a, r) && Link(t, a, source) && SoundAds(t, source, entries)
    requires source in r.neighbors || exists x <- entries :: x.dest == a
    requires (a, source) in t.port
    requires var m := Introduce(r, t.port[(a, source)], source, entries, junk);
      && source in m.neighbors
      && forall x <- entries :: x.cost != INFINITY_COST ==> x.cost + m.neighbors[source].cost < INFINITY_COST
    ensures var (q, ads) := RecvDV(r, t.port[(a, source)], source, entries, now, junk);
      SoundRouter(t, a, q) && SoundAds(t, a, ads)
  {
    var m := Introduce(r, t.port[(a, source)], source, entries, junk);
    if source !in r.neighbors {
      ListedIsSound(t, a, source, entries, junk);
    }
    RecvDVConsistent(r, t.port[(a, source)], source, entries, now, junk);
    assert SoundNeighbors(t, a, m.neighbors);
    RelaxSound(t, m, source, entries, now);
    hide Within, Consistent, Relax, SoundTable, SoundPorts, SoundAds, PortOfLink, ListedCost;
  }

  // ---------------------------------------------------------------- pongs

  /** The difference added by a pong is the round-trip time or nothing. */
  lemma PongDifference(t: Topology, a: nat, r: Router, b: nat)
    requires Configured(t) && Modest(t) && SoundPorts(t, a, r.ports) && Link(t, a, b)
    requires (a, b) in t.port && t.port[(a, b)] in r.ports
    ensures U32(Weight(t, a, b) - r.ports[t.port[(a, b)]].cost) in {0, Weight(t, a, b)}
  {
  }

  lemma PongCellSound(t: Topology, a: nat, neighbors: map<nat, Neighbor>, b: nat, diff: nat, now: nat, d: nat, c: Cell)
    requires Link(t, a, b) && Weight(t, a, b) < INFINITY_COST && diff in {0, Weight(t, a, b)}
    requires SoundNeighbors(t, a, neighbors)
    requires Within(t, a, d, c.cost) && c.cost <= INFINITY_COST
    requires c.nextHop == b ==> c.cost + Weight(t, a, b) < INFINITY_COST
    ensures var q := PongCell(neighbors, b, Weight(t, a, b), diff, now, d, c);
      q.cost <= INFINITY_COST && Within(t, a, d, q.cost)
  {
    WithinMore(t, a, d, c.cost, c.cost + diff);
    WithinLink(t, a, b);
    hide Within;
  }

  lemma ListingSoundAds(t: Topology, a: nat, m: map<nat, nat>, dv: map<nat, Cell>)
    requires SoundTable(t, a, dv) && m.Keys <= dv.Keys && forall d :: d in m ==> m[d] == U16(dv[d].cost)
    ensures SoundAds(t, a, Listing(m))
  {
  }

  lemma ConcatSoundAds(t: Topology, a: nat, x: seq<Entry>, y: seq<Entry>)
    requires SoundAds(t, a, x) && SoundAds(t, a, y)
    ensures SoundAds(t, a, x + y)
  {
  }

  lemma PongTableSound(t: Topology, a: nat, dv: map<nat, Cell>, neighbors: map<nat, Neighbor>, b: nat, diff: nat,
          now: nat)
    requires Link(t, a, b) && Weight(t, a, b) < INFINITY_COST && diff in {0, Weight(t, a, b)}
    requires SoundNeighbors(t, a, neighbors) && SoundTable(t, a, dv)
    requires forall d :: d in dv && dv[d].nextHop == b ==> dv[d].cost + Weight(t, a, b) < INFINITY_COST
    ensures SoundTable(t, a, PongTable(dv, neighbors, b, Weight(t, a, b), diff, now))
  {
    hide Within, PongCell;
    forall d | d in dv
      ensures var q := PongCell(neighbors, b, Weight(t, a, b), diff, now, d, dv[d]);
        q.cost <= INFINITY_COST && Within(t, a, d, q.cost)
    {
      PongCellSound(t, a, neighbors, b, diff, now, d, dv[d]);
    }
  }

  lemma PongPortsSound(t: Topology, a: nat, ports: map<nat, Port>, p: nat, b: nat, now: nat)
    requires Link(t, a, b) && (a, b) in t.port && t.port[(a, b)] == p && SoundPorts(t, a, ports)
    ensures SoundPorts(t, a, PongPorts(ports, p, b, Weight(t, a, b), now))
  {
  }

  /** The round-trip time a pong measures, how it differs from the last one, the
      neighbours and the table it leaves. */
  ghost function PongDiff(t: Topology, a: nat, r: Router, b: nat): nat
    requires Link(t, a, b) && (a, b) in t.port && t.port[(a, b)] in r.ports
  {
    U32(Weight(t, a, b) - r.ports[t.port[(a, b)]].cost)
  }

  ghost function PongNeighbors(t: Topology, a: nat, r: Router, b: nat): map<nat, Neighbor>
    requires Link(t, a, b) && (a, b) in t.port
  {
    r.neighbors[b := Neighbor(Weight(t, a, b), t.port[(a, b)])]
  }

  ghost function PongUpdated(t: Topology, a: nat, r: Router, b: nat, now: nat): map<nat, Cell>
    requires Link(t, a, b) && (a, b) in t.port && t.port[(a, b)] in r.ports
  {
    PongTable(r.dv, PongNeighbors(t, a, r, b), b, Weight(t, a, b), PongDiff(t, a, r, b), now)
  }

  lemma PongNeighborsSound(t: Topology, a: nat, r: Router, b: nat)
    requires Modest(t) && Link(t, a, b) && (a, b) in t.port && SoundNeighbors(t, a, r.neighbors)
    ensures SoundNeighbors(t, a, PongNeighbors(t, a, r, b))
  {
    WithinLink(t, a, b);
    hide Within;
  }

  lemma PongUpdatedSound(t: Topology, a: nat, r: Router, b: nat, now: nat)
    requires Configured(t) && Modest(t) && Link(t, a, b) && (a, b) in t.port && t.port[(a, b)] in r.ports
    requires SoundPorts(t, a, r.ports) && SoundNeighbors(t, a, r.neighbors) && SoundTable(t, a, r.dv)
    requires forall d :: d in r.dv && r.dv[d].nextHop == b ==> r.dv[d].cost + Weight(t, a, b) < INFINITY_COST
    ensures SoundTable(t, a, PongUpdated(t, a, r, b, now))
    ensures SoundTable(t, a, PongUpdated(t, a, r, b, now)[b := Cell(b, Weight(t, a, b), now)])
  {
    PongDifference(t, a, r, b);
    PongNeighborsSound(t, a, r, b);
    WithinLink(t, a, b);
    hide Within, PongTable, SoundNeighbors, SoundPorts, Configured;
    PongTableSound(t, a, r.dv, PongNeighbors(t, a, r, b), b, PongDiff(t, a, r, b), now);
  }

  lemma PongAdsSound(t: Topology, a: nat, dv: map<nat, Cell>, table: map<nat, Cell>, full: map<nat, Cell>, b: nat,
                     rtt: nat, diff: nat, was: bool)
    requires table.Keys == dv.Keys && SoundTable(t, a, table) && SoundTable(t, a, full)
    ensures SoundAds(t, a, Listing(PongNews(dv, table, b, rtt, diff, was)))
    ensures SoundAds(t, a, Listing(PongNews(dv, table, b, rtt, diff, was)) + Listing(Costs(full)))
  {
    ListingSoundAds(t, a, PongNews(dv, table, b, rtt, diff, was), table);
    ListingSoundAds(t, a, Costs(full), full);
    hide Costs, PongNews, SoundAds, SoundTable;
    ConcatSoundAds(t, a, Listing(PongNews(dv, table, b, rtt, diff, was)), Listing(Costs(full)));
  }

  lemma PongSound(t: Topology, a: nat, r: Router, b: nat, sentAt: nat, now: nat)
    requires Configured(t) && Modest(t) && SoundRouter(t, a, r) && Link(t, a, b)
    requires (a, b) in t.port && t.port[(a, b)] in r.ports && now == sentAt + Weight(t, a, b)
    requires forall d :: d in r.dv && r.dv[d].nextHop == b ==> r.dv[d].cost + Weight(t, a, b) < INFINITY_COST
    ensures var (q, ads) := RecvPong(r, t.port[(a, b)], b, sentAt, now);
      SoundRouter(t, a, q) && SoundAds(t, a, ads)
  {
    hide Within, Consistent, SoundTable, SoundPorts, SoundAds, SoundNeighbors, PongTable, PongNews, PongPorts,
      Listing, Costs,
      NextHops, Configured, Link, Weight, Modest, U16;
    var p, w := t.port[(a, b)], Weight(t, a, b);
    LinkEnds(t, a, b);
    RecvPongConsistent(r, p, b, sentAt, now);
    PongNeighborsSound(t, a, r, b);
    PongUpdatedSound(t, a, r, b, now);
    PongPortsSound(t, a, r.ports, p, b, now);
    var table := PongUpdated(t, a, r, b, now);
    var full := if b in table then table else table[b := Cell(b, w, now)];
    PongKeys(r.ports, r.dv, PongNeighbors(t, a, r, b), p, b, w, PongDiff(t, a, r, b), now);
    PongAdsSound(t, a, r.dv, table, full, b, w, PongDiff(t, a, r, b), r.ports[p].connected);
  }

  lemma LinkEnds(t: Topology, a: nat, b: nat)
    requires Configured(t) && Modest(t) && Link(t, a, b)
    ensures a != b && Weight(t, a, b) < INFINITY_COST
  {
  }

  // ---------------------------------------------------------------- expiry

  lemma RefreshTableSound(t: Topology, a: nat, r: Router, now: nat)
    requires SoundRouter(t, a, r)
    ensures SoundTable(t, a, Refresh(r, now).dv)
    ensures SoundNeighbors(t, a, Refresh(r, now).neighbors)
  {
  }

  lemma RefreshPortsSound(t: Topology, a: nat, r: Router, now: nat)
    requires SoundPorts(t, a, r.ports)
    ensures SoundPorts(t, a, Refresh(r, now).ports)
  {
  }

  lemma RefreshAdsSound(t: Topology, a: nat, r: Router, now: nat, ads: seq<Entry>)
    requires SoundNeighbors(t, a, r.neighbors) && Advertises(ads, r, now)
    ensures SoundAds(t, a, ads)
  {
  }

  lemma RefreshSound(t: Topology, a: nat, r: Router, now: nat, ads: seq<Entry>)
    requires SoundRouter(t, a, r) && Advertises(ads, r, now)
    ensures SoundRouter(t, a, Refresh(r, now)) && SoundAds(t, a, ads)
  {
    RefreshConsistent(r, now);
    RefreshTableSound(t, a, r, now);
    RefreshPortsSound(t, a, r, now);
    RefreshAdsSound(t, a, r, now, ads);
    hide SoundAds, Consistent, SoundTable, SoundNeighbors, SoundPorts, Advertises, Gone, ExpiredKeys, Fallback,
      NextHops, PortsBelow;
  }

  // ---------------------------------------------------------------- every event

  lemma EmitSound(t: Topology, n: Network, a: nat, q: Router, ads: seq<Entry>)
    requires Sound(t, n) && a in t.nodes && SoundRouter(t, a, q) && SoundAds(t, a, ads)
    ensures Sound(t, Network(n.routers[a := q], n.flight + Emit(t, a, q, ads)))
    ensures Sound(t, Network(n.routers[a := q], n.flight + EmitSome(t, a, q, ads)))
  {
    hide SoundRouter, SoundAds;
  }

  lemma NextSound(t: Topology, n: Network, e: Event)
    requires Configured(t) && Modest(t) && Sound(t, n) && Enabled(t, n, e)
    ensures Sound(t, Next(t, n, e))
  {
    hide SoundRouter, SoundAds, Emit, EmitSome, RecvDV, RecvPong, Refresh, Listing, Costs, Advertises;
    match e
    case Pong(a, b, sentAt, now) =>
      assert SoundRouter(t, a, n.routers[a]);
      PongSound(t, a, n.routers[a], b, sentAt, now);
      var (q, ads) := RecvPong(n.routers[a], t.port[(a, b)], b, sentAt, now);
      EmitSound(t, n, a, q, ads);
    case Deliver(m, now, junk) =>
      assert SoundRouter(t, m.to, n.routers[m.to]);
      RouterId(t, m.to, n.routers[m.to]);
      DeliverSound(t, m.to, n.routers[m.to], m.from, m.entries, now, junk);
      var (q, ads) := RecvDV(n.routers[m.to], t.port[(m.to, m.from)], m.from, m.entries, now, junk);
      EmitSound(t, n, m.to, q, ads);
    case Update(a) =>
      assert SoundRouter(t, a, n.routers[a]);
      UpdateSound(t, a, n.routers[a]);
      EmitSound(t, n, a, n.routers[a], Listing(Costs(n.routers[a].dv)));
      assert n.routers[a := n.routers[a]] == n.routers;
    case Expire(a, now, ads) =>
      assert SoundRouter(t, a, n.routers[a]);
      RefreshSound(t, a, n.routers[a], now, ads);
      EmitSound(t, n, a, Refresh(n.routers[a], now), ads);
  }

  lemma RouterId(t: Topology, a: nat, r: Router)
    requires SoundRouter(t, a, r)
    ensures r.id == a
  {
  }

  lemma UpdateSound(t: Topology, a: nat, r: Router)
    requires SoundRouter(t, a, r)
    ensures SoundAds(t, a, Listing(Costs(r.dv)))
  {
    hide Within;
    ListingSoundAds(t, a, Costs(r.dv), r.dv);
  }

  lemma InitSound(t: Topology, n: Network)
    requires Init(t, n)
    ensures Sound(t, n)
  {
  }

  lemma {:induction false} RunSound(t: Topology, states: seq<Network>, events: seq<Event>, i: nat)
    requires Configured(t) && Modest(t) && Run(t, states, events) && i < |states|
    ensures Sound(t, states[i])
  {
    hide Sound, Next, Enabled, Init, Configured, Modest;
    if i == 0 {
      InitSound(t, states[0]);
    } else {
      RunSound(t, states, events, i - 1);
      NextSound(t, states[i - 1], events[i - 1]);
    }
  }

  /** In every run, every table entry of every router is at least as dear as some walk
      of configured links to its destination, and so is every finite cost in flight. */
  lemma CostsAreNeverTooLow(t: Topology, states: seq<Network>, events: seq<Event>, i: nat)
    requires Configured(t) && Modest(t) && Run(t, states, events) && i < |states|
    ensures forall a, d :: a in states[i].routers && d in states[i].routers[a].dv ==>
              Within(t, a, d, states[i].routers[a].dv[d].cost)
    ensures forall m <- states[i].flight, e <- m.entries ::
              e.cost != INFINITY_COST ==> Within(t, m.from, e.dest, e.cost)
  {
    RunSound(t, states, events, i);
    hide Within, Consistent, SoundPorts, SoundNeighbors, Run;
    forall a, d | a in states[i].routers && d in states[i].routers[a].dv
      ensures Within(t, a, d, states[i].routers[a].dv[d].cost)
    {
      assert SoundRouter(t, a, states[i].routers[a]);
    }
    forall m <- states[i].flight, e <- m.entries
      ensures e.cost != INFINITY_COST ==> Within(t, m.from, e.dest, e.cost)
    {
      assert SoundAds(t, m.from, m.entries);
    }
  }
}
