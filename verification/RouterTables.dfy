/** The distance-vector router of project3: what its handlers do to its four tables.
    Ids, costs and times have the widths of the source: 16 bits in messages, 32 bits in
    the tables, with the source's truncations. */
module RouterTables {
  import opened Words

  const INFINITY_COST: nat := 0xffff

  datatype Port = Port(to: nat, cost: nat, updated: nat, connected: bool)

  datatype Cell = Cell(nextHop: nat, cost: nat, updated: nat)

  datatype Neighbor = Neighbor(cost: nat, port: nat)

  /** One destination of a distance-vector packet. */
  datatype Entry = Entry(dest: nat, cost: nat)

  datatype Router = Router(id: nat, numPorts: nat, ports: map<nat, Port>, neighbors: map<nat, Neighbor>,
                           dv: map<nat, Cell>, forwarding: map<nat, nat>)

  /** A packet handed to a port, with the neighbour named in its header. */
  datatype Sent = Sent(port: nat, to: nat, entries: seq<Entry>)

  function StartPorts(n: nat): (m: map<nat, Port>)
    ensures forall p :: p in m <==> 0 <= p < n
    ensures forall p :: p in m ==> m[p] == Port(0, 0, 0, false)
  {
    if n == 0 then map[] else StartPorts(n - 1)[n - 1 := Port(0, 0, 0, false)]
  }

  function Start(id: nat, numPorts: nat): Router {
    Router(id, numPorts, StartPorts(numPorts), map[], map[], map[])
  }

  // ---------------------------------------------------------------- the invariant of one router

  /** A connected port names a neighbour whose entry points back to that port. */
  predicate PortBacked(r: Router, p: nat)
    requires p in r.ports
  {
    r.ports[p].connected ==> r.ports[p].to in r.neighbors && r.neighbors[r.ports[p].to].port == p
  }

  /** A table entry and its forwarding entry agree on a next hop that is a neighbour. */
  predicate RouteBacked(r: Router, d: nat)
    requires d in r.dv
  {
    d in r.forwarding && r.dv[d].nextHop == r.forwarding[d] && r.forwarding[d] in r.neighbors
  }

  ghost predicate Consistent(r: Router) {
    && (forall p :: p in r.ports <==> 0 <= p < r.numPorts)
    && (forall p :: p in r.ports ==> PortBacked(r, p))
    && r.forwarding.Keys == r.dv.Keys && r.id !in r.dv
    && (forall d :: d in r.dv ==> RouteBacked(r, d))
  }

  lemma StartConsistent(id: nat, numPorts: nat)
    ensures Consistent(Start(id, numPorts))
  {
  }

  /** Connected ports lead to distinct neighbours. */
  lemma ConnectedPortsDistinct(r: Router, p: nat, q: nat)
    requires Consistent(r) && p in r.ports && q in r.ports && r.ports[p].connected && r.ports[q].connected
    requires r.ports[p].to == r.ports[q].to
    ensures p == q
  {
  }

  // ---------------------------------------------------------------- messages

  /** The costs of a table as they are put into packets. */
  function Costs(dv: map<nat, Cell>): map<nat, nat> {
    map d | d in dv :: U16(dv[d].cost)
  }

  predicate IsLeast(k: nat, s: set<nat>) {
    k in s && forall j <- s :: k <= j
  }

  lemma {:induction false} LeastExists(s: set<nat>) returns (k: nat)
    requires s != {}
    ensures IsLeast(k, s)
    decreases |s|
  {
    var j :| j in s;
    k := j;
    if s - {j} == {} {
    } else {
      var m := LeastExists(s - {j});
      k := if m < j then m else j;
    }
    assert forall i <- s :: i == j || i in s - {j};
  }

  ghost function Least(s: set<nat>): (k: nat)
    requires s != {}
    ensures IsLeast(k, s)
  {
    assert exists k :: IsLeast(k, s) by {
      var k := LeastExists(s);
    }
    var k :| IsLeast(k, s);
    k
  }

  /** The entries of a cost map in the order of iteration over a std::map: ascending keys. */
  ghost function Listing(m: map<nat, nat>): seq<Entry>
    decreases |m.Keys|
  {
    if m.Keys == {} then []
    else
      var k := Least(m.Keys);
      [Entry(k, m[k])] + Listing(m - {k})
  }

  lemma ListingFirst(m: map<nat, nat>, k: nat)
    requires IsLeast(k, m.Keys)
    ensures Listing(m) == [Entry(k, m[k])] + Listing(m - {k})
  {
  }

  /** A listing contains only keys of the map, with their costs ... */
  lemma {:induction false} ListingSound(m: map<nat, nat>, i: nat)
    requires i < |Listing(m)|
    ensures Listing(m)[i].dest in m && Listing(m)[i].cost == m[Listing(m)[i].dest]
    decreases i
  {
    var k := Least(m.Keys);
    if i == 0 {
    } else {
      ListingSound(m - {k}, i - 1);
      assert Listing(m)[i] == Listing(m - {k})[i - 1];
    }
  }

  /** ... and every key ... */
  lemma {:induction false} ListingComplete(m: map<nat, nat>, d: nat)
    requires d in m
    ensures Entry(d, m[d]) in Listing(m)
    decreases |m.Keys|
  {
    var k := Least(m.Keys);
    if d != k {
      var rest := m - {k};
      ListingComplete(rest, d);
      assert rest[d] == m[d];
      var i :| 0 <= i < |Listing(rest)| && Listing(rest)[i] == Entry(d, m[d]);
      assert Listing(m)[i + 1] == Entry(d, m[d]);
    } else {
      assert Listing(m)[0] == Entry(d, m[d]);
    }
  }

  /** ... once, in ascending order. */
  lemma {:induction false} ListingAscending(m: map<nat, nat>, i: nat, j: nat)
    requires i < j < |Listing(m)|
    ensures Listing(m)[i].dest < Listing(m)[j].dest
    decreases i
  {
    var k := Least(m.Keys);
    var rest := m - {k};
    assert Listing(m)[j] == Listing(rest)[j - 1];
    ListingSound(rest, j - 1);
    if i == 0 {
    } else {
      ListingAscending(rest, i - 1, j - 1);
      assert Listing(m)[i] == Listing(rest)[i - 1];
    }
  }

  /** sendDVUpdate: the same entries on every connected port, in port order. */
  function SendUpdate(ports: map<nat, Port>, n: nat, entries: seq<Entry>): seq<Sent>
    requires forall p :: 0 <= p < n ==> p in ports
  {
    if n == 0 then []
    else if ports[n - 1].connected then SendUpdate(ports, n - 1, entries) + [Sent(n - 1, ports[n - 1].to, entries)]
    else SendUpdate(ports, n - 1, entries)
  }

  // ---------------------------------------------------------------- distance vectors

  /** The cost a packet lists for this router; without one the cell stays uninitialised. */
  function ListedCost(entries: seq<Entry>, id: nat, junk: nat): nat {
    if entries == [] then junk
    else if entries[0].dest == id then entries[0].cost
    else ListedCost(entries[1..], id, junk)
  }

  /** An unknown source becomes a neighbour. */
  function Introduce(r: Router, port: nat, source: nat, entries: seq<Entry>, junk: nat): Router {
    if source in r.neighbors then r
    else r.(neighbors := r.neighbors[source := Neighbor(ListedCost(entries, r.id, junk), port)])
  }

  /** What an entry does to the route to its destination: nothing, a new route, or its
      removal; and how often the resulting cost is advertised. */
  datatype Verdict = Keep(echoes: nat) | Take(hop: nat, cost: nat) | Drop

  function Judge(r: Router, source: nat, e: Entry): Verdict
    requires source in r.neighbors
  {
    var via := U32(e.cost + r.neighbors[source].cost);
    if e.dest in r.dv then
      if e.cost != INFINITY_COST then
        if r.dv[e.dest].cost > via then Take(source, via)
        else if r.dv[e.dest].nextHop != source then Keep(0)
        else if e.dest in r.neighbors && r.neighbors[e.dest].cost <= via then
          Take(e.dest, r.neighbors[e.dest].cost)
        else Take(source, via)
      else if r.dv[e.dest].nextHop != source then Keep(2)
      else if e.dest in r.neighbors then Take(e.dest, r.neighbors[e.dest].cost)
      else Drop
    else if e.cost != INFINITY_COST && e.dest != r.id then Take(source, via)
    else Keep(0)
  }

  function Apply(r: Router, d: nat, v: Verdict, now: nat): Router {
    match v
    case Keep(_) => r
    case Take(hop, cost) => r.(dv := r.dv[d := Cell(hop, cost, now)], forwarding := r.forwarding[d := hop])
    case Drop => r.(dv := r.dv - {d}, forwarding := r.forwarding - {d})
  }

  function Adverts(r: Router, d: nat, v: Verdict): seq<Entry>
    requires v.Keep? && v.echoes > 0 ==> d in r.dv
  {
    match v
    case Keep(n) => if n == 0 then [] else [Entry(d, U16(r.dv[d].cost)), Entry(d, U16(r.dv[d].cost))]
    case Take(_, cost) => [Entry(d, U16(cost))]
    case Drop => [Entry(d, INFINITY_COST)]
  }

  /** The entries of a packet, one after the other; the second component collects what
      is to be advertised. */
  function Relax(r: Router, source: nat, entries: seq<Entry>, now: nat): (q: (Router, seq<Entry>))
    requires source in r.neighbors
    ensures q.0.neighbors == r.neighbors && q.0.ports == r.ports && q.0.id == r.id && q.0.numPorts == r.numPorts
  {
    if entries == [] then (r, [])
    else
      var e := entries[|entries| - 1];
      var (t, ads) := Relax(r, source, entries[..|entries| - 1], now);
      var v := Judge(t, source, e);
      (Apply(t, e.dest, v, now), ads + Adverts(t, e.dest, v))
  }

  function RecvDV(r: Router, port: nat, source: nat, entries: seq<Entry>, now: nat, junk: nat): (Router, seq<Entry>) {
    Relax(Introduce(r, port, source, entries, junk), source, entries, now)
  }

  // ---------------------------------------------------------------- pongs

  function PongPorts(ports: map<nat, Port>, port: nat, source: nat, rtt: nat, now: nat): map<nat, Port> {
    map p | p in ports :: if p == port then Port(source, rtt, now, true)
                          else if ports[p].to == source then ports[p].(connected := false)
                          else ports[p]
  }

  /** How a measured round-trip time changes the entry for destination d; diff is its
      change on this port, modulo 2^32. */
  function PongCell(neighbors: map<nat, Neighbor>, source: nat, rtt: nat, diff: nat, now: nat, d: nat, c: Cell): Cell {
    if diff == 0 then
      if c.nextHop == source || d == source then c.(updated := now) else c
    else if c.nextHop == source then
      var may := U16(U32(c.cost + diff));
      if d !in neighbors then Cell(source, may, now)
      else if neighbors[d].cost <= may then Cell(d, neighbors[d].cost, now)
      else c.(updated := now)
    else if d == source && rtt <= c.cost then Cell(source, rtt, now)
    else c
  }

  function PongTable(dv: map<nat, Cell>, neighbors: map<nat, Neighbor>, source: nat, rtt: nat, diff: nat,
          now: nat): map<nat, Cell> {
    map d | d in dv :: PongCell(neighbors, source, rtt, diff, now, d, dv[d])
  }

  /** Which entries a pong advertises: those through the source, the source itself if
      it became direct, and everything if the port was not connected before. */
  function PongNews(dv: map<nat, Cell>, table: map<nat, Cell>, source: nat, rtt: nat, diff: nat,
          wasConnected: bool): map<nat, nat>
    requires table.Keys == dv.Keys
  {
    map d | d in dv && IsNews(d, dv[d], source, rtt, diff, !wasConnected && source in dv) :: U16(table[d].cost)
  }

  predicate IsNews(d: nat, c: Cell, source: nat, rtt: nat, diff: nat, returning: bool) {
    diff != 0 && (c.nextHop == source || (d == source && rtt <= c.cost) || returning)
  }

  function NextHops(dv: map<nat, Cell>): map<nat, nat> {
    map d | d in dv :: dv[d].nextHop
  }

  /** A pong that answers a ping sent at sentAt. */
  ghost function RecvPong(r: Router, port: nat, source: nat, sentAt: nat, now: nat): (Router, seq<Entry>)
    requires port in r.ports
  {
    var rtt := U32(now - sentAt);
    var diff := U32(rtt - r.ports[port].cost);
    var neighbors := r.neighbors[source := Neighbor(rtt, port)];
    var table := PongTable(r.dv, neighbors, source, rtt, diff, now);
    var news := Listing(PongNews(r.dv, table, source, rtt, diff, r.ports[port].connected));
    var full := if source in table then table else table[source := Cell(source, rtt, now)];
    (r.(ports := PongPorts(r.ports, port, source, rtt, now), neighbors := neighbors,
        dv := full, forwarding := NextHops(full)),
     if source in table then news else news + Listing(Costs(full)))
  }

  // ---------------------------------------------------------------- expiry

  const PORT_LIMIT: nat := 15000
  const ENTRY_LIMIT: nat := 45000

  predicate Late(now: nat, updated: nat, limit: nat) {
    U32(now - updated) > limit
  }

  predicate PortDies(ports: map<nat, Port>, p: nat, now: nat) {
    p in ports && ports[p].connected && Late(now, ports[p].updated, PORT_LIMIT)
  }

  /** The neighbours whose port expires. */
  ghost function Gone(r: Router, now: nat): set<nat> {
    GoneBelow(r.ports, now, r.numPorts)
  }

  /** The ports after the first n were looked at. */
  function PortsBelow(ports: map<nat, Port>, now: nat, n: nat): map<nat, Port> {
    map p | p in ports ::
      if p < n && PortDies(ports, p, now) then ports[p].(connected := false, cost := 0) else ports[p]
  }

  ghost function GoneBelow(ports: map<nat, Port>, now: nat, n: nat): set<nat> {
    set p | p in ports && p < n && PortDies(ports, p, now) :: ports[p].to
  }

  /** Is the entry lost with its neighbour, or too old? */
  predicate Expires(c: Cell, gone: set<nat>, now: nat) {
    c.nextHop in gone || Late(now, c.updated, ENTRY_LIMIT)
  }

  /** The table after the entries in done fell back to a direct link or disappeared. */
  function Fallback(dv: map<nat, Cell>, neighbors: map<nat, Neighbor>, done: set<nat>, now: nat): map<nat, Cell> {
    map d | d in dv && (d in done ==> d in neighbors) ::
      if d in done then Cell(d, neighbors[d].cost, now) else dv[d]
  }

  function FallbackAd(neighbors: map<nat, Neighbor>, d: nat): Entry {
    Entry(d, if d in neighbors then U16(neighbors[d].cost) else INFINITY_COST)
  }

  function ExpiredKeys(dv: map<nat, Cell>, gone: set<nat>, now: nat): set<nat> {
    set d | d in dv && Expires(dv[d], gone, now)
  }

  ghost function Refresh(r: Router, now: nat): Router {
    var gone := Gone(r, now);
    var neighbors := r.neighbors - gone;
    var table := Fallback(r.dv, neighbors, ExpiredKeys(r.dv, gone, now), now);
    r.(ports := PortsBelow(r.ports, now, r.numPorts), neighbors := neighbors,
       dv := table, forwarding := NextHops(table))
  }

  /** The destinations in done, each advertised exactly once: at its direct cost if it
      is a neighbour, as unreachable otherwise. */
  ghost predicate AdsFor(ads: seq<Entry>, neighbors: map<nat, Neighbor>, done: set<nat>) {
    && (forall e <- ads :: e.dest in done && e == FallbackAd(neighbors, e.dest))
    && (forall d <- done :: FallbackAd(neighbors, d) in ads)
    && (forall i, j :: 0 <= i < j < |ads| ==> ads[i].dest != ads[j].dest)
  }

  ghost predicate Advertises(ads: seq<Entry>, r: Router, now: nat) {
    AdsFor(ads, r.neighbors - Gone(r, now), ExpiredKeys(r.dv, Gone(r, now), now))
  }

  /** Keys in the order of iteration over a std::map. */
  ghost function KeyOrder(s: set<nat>): seq<nat>
    decreases |s|
  {
    if s == {} then []
    else
      var k := Least(s);
      [k] + KeyOrder(s - {k})
  }

  function Through(dv: map<nat, Cell>, to: nat): set<nat> {
    set d | d in dv && dv[d].nextHop == to
  }

  /** The destinations lost with the first n ports: port by port, in key order. */
  ghost function LostOrder(r: Router, now: nat, n: nat): seq<nat> {
    if n == 0 then []
    else LostOrder(r, now, n - 1)
         + (if PortDies(r.ports, n - 1, now) then KeyOrder(Through(r.dv, r.ports[n - 1].to)) else [])
  }

  /** The other entries that are too old. */
  function Stale(dv: map<nat, Cell>, gone: set<nat>, now: nat): set<nat> {
    set d | d in dv && dv[d].nextHop !in gone && Late(now, dv[d].updated, ENTRY_LIMIT)
  }

  function AdsOf(neighbors: map<nat, Neighbor>, keys: seq<nat>): (ads: seq<Entry>)
    ensures |ads| == |keys|
  {
    seq(|keys|, i requires 0 <= i < |keys| => FallbackAd(neighbors, keys[i]))
  }

  /** What a refresh advertises, in this order. */
  ghost function RefreshAds(r: Router, now: nat): seq<Entry> {
    AdsOf(r.neighbors - Gone(r, now), LostOrder(r, now, r.numPorts) + KeyOrder(Stale(r.dv, Gone(r, now), now)))
  }

  // ---------------------------------------------------------------- data

  datatype Delivery = Local | Unreachable | Out(port: nat)

  function RecvData(r: Router, dest: nat): Delivery
    requires dest in r.forwarding ==> r.forwarding[dest] in r.neighbors
  {
    if dest == r.id then Local
    else if dest !in r.forwarding then Unreachable
    else Out(r.neighbors[r.forwarding[dest]].port)
  }
}
