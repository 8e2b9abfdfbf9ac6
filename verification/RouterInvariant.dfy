/** What every handler of project3 keeps, and what expiry leaves behind. */
module RouterInvariant {
  import opened RouterTables
  import opened Words

  // ---------------------------------------------------------------- distance vectors

  lemma IntroduceConsistent(r: Router, port: nat, source: nat, entries: seq<Entry>, junk: nat)
    requires Consistent(r)
    ensures Consistent(Introduce(r, port, source, entries, junk))
    ensures source in Introduce(r, port, source, entries, junk).neighbors
  {
  }

  /** A new route goes to the source or to the destination itself, and both are neighbours;
      an erased entry is present in both tables. */
  lemma JudgeIsSound(r: Router, source: nat, e: Entry)
    requires Consistent(r) && source in r.neighbors
    ensures var v := Judge(r, source, e);
      && (v.Take? ==> v.hop in r.neighbors && (v.hop == source || v.hop == e.dest) && e.dest != r.id)
      && (v.Drop? ==> e.dest in r.dv && e.dest in r.forwarding)
      && (v.Keep? && v.echoes > 0 ==> e.dest in r.dv)
  {
  }

  lemma ApplyConsistent(r: Router, source: nat, e: Entry, now: nat)
    requires Consistent(r) && source in r.neighbors
    ensures Consistent(Apply(r, e.dest, Judge(r, source, e), now))
  {
  }

  lemma {:induction false} RelaxConsistent(r: Router, source: nat, entries: seq<Entry>, now: nat)
    requires Consistent(r) && source in r.neighbors
    ensures Consistent(Relax(r, source, entries, now).0)
  {
    hide Consistent, Judge, Apply;
    if entries == [] {
    } else {
      var n := |entries| - 1;
      RelaxConsistent(r, source, entries[..n], now);
      ApplyConsistent(Relax(r, source, entries[..n], now).0, source, entries[n], now);
    }
  }

  /** A packet of any contents from any neighbour keeps the four tables consistent. */
  lemma RecvDVConsistent(r: Router, port: nat, source: nat, entries: seq<Entry>, now: nat, junk: nat)
    requires Consistent(r)
    ensures Consistent(RecvDV(r, port, source, entries, now, junk).0)
  {
    hide Consistent, Introduce;
    IntroduceConsistent(r, port, source, entries, junk);
    RelaxConsistent(Introduce(r, port, source, entries, junk), source, entries, now);
  }

  /** Poison is heeded: after an infinite cost from a neighbour no route to that destination
      leads through it, unless it is the destination itself; the route is given up exactly
      if it led there and no direct link is left; and the outcome is advertised, exactly
      if there was a route. */
  lemma PoisonIsHeeded(r: Router, source: nat, e: Entry, now: nat)
    requires Consistent(r) && source in r.neighbors && e.cost == INFINITY_COST
    ensures var v, d := Judge(r, source, e), e.dest;
      var q, ads := Apply(r, d, v, now), Adverts(r, d, v);
      && (d in q.dv ==> q.dv[d].nextHop != source || d == source)
      && (d in q.dv <==> d in r.dv && (r.dv[d].nextHop != source || d in r.neighbors))
      && (forall x <- ads :: x == Entry(d, if d in q.dv then U16(q.dv[d].cost) else INFINITY_COST))
      && (ads != [] <==> d in r.dv)
  {
  }

  // ---------------------------------------------------------------- updates

  /** sendDVUpdate sends one packet on each connected port, to the neighbour there, in
      port order, and nothing on the others. */
  lemma {:induction false} SendUpdateSound(ports: map<nat, Port>, n: nat, entries: seq<Entry>, i: nat)
    requires (forall p :: 0 <= p < n ==> p in ports) && i < |SendUpdate(ports, n, entries)|
    ensures var s := SendUpdate(ports, n, entries)[i];
      s.port < n && ports[s.port].connected && s == Sent(s.port, ports[s.port].to, entries)
    ensures i > 0 ==> SendUpdate(ports, n, entries)[i - 1].port < SendUpdate(ports, n, entries)[i].port
  {
    var rest := SendUpdate(ports, n - 1, entries);
    if i < |rest| {
      SendUpdateSound(ports, n - 1, entries, i);
    } else if i > 0 {
      SendUpdateSound(ports, n - 1, entries, i - 1);
    }
  }

  lemma {:induction false} SendUpdateComplete(ports: map<nat, Port>, n: nat, entries: seq<Entry>, p: nat)
    requires (forall q :: 0 <= q < n ==> q in ports) && p < n && ports[p].connected
    ensures Sent(p, ports[p].to, entries) in SendUpdate(ports, n, entries)
  {
    if p >= n - 1 {
    } else {
      SendUpdateComplete(ports, n - 1, entries, p);
    }
  }

  // ---------------------------------------------------------------- pongs

  lemma PongKeepsRoutes(r: Router, neighbors: map<nat, Neighbor>, source: nat, rtt: nat, diff: nat, now: nat, d: nat)
    requires Consistent(r) && d in r.dv && source in neighbors && r.neighbors.Keys <= neighbors.Keys
    ensures PongTable(r.dv, neighbors, source, rtt, diff, now)[d].nextHop in neighbors
  {
  }

  lemma PongKeys(ports: map<nat, Port>, dv: map<nat, Cell>, neighbors: map<nat, Neighbor>, port: nat, source: nat,
                 rtt: nat, diff: nat, now: nat)
    ensures PongPorts(ports, port, source, rtt, now).Keys == ports.Keys
    ensures PongTable(dv, neighbors, source, rtt, diff, now).Keys == dv.Keys
  {
  }

  lemma PongPortsBacked(r: Router, port: nat, source: nat, sentAt: nat, now: nat)
    requires Consistent(r) && port in r.ports
    ensures var q := RecvPong(r, port, source, sentAt, now).0;
      q.ports.Keys == r.ports.Keys && forall p :: p in q.ports ==> PortBacked(q, p)
  {
  }

  lemma PongRoutesBacked(r: Router, port: nat, source: nat, sentAt: nat, now: nat)
    requires Consistent(r) && port in r.ports
    ensures var q := RecvPong(r, port, source, sentAt, now).0;
      && q.dv.Keys == r.dv.Keys + {source} && q.forwarding.Keys == q.dv.Keys
      && forall d :: d in q.dv ==> RouteBacked(q, d)
  {
    hide Listing, U32, PongNews, PongTable, PongPorts, Consistent;
    var q := RecvPong(r, port, source, sentAt, now).0;
    var rtt := U32(now - sentAt);
    PongKeys(r.ports, r.dv, q.neighbors, port, source, rtt, U32(rtt - r.ports[port].cost), now);
    forall d | d in q.dv
      ensures RouteBacked(q, d)
    {
      if d in r.dv {
        PongKeepsRoutes(r, q.neighbors, source, rtt, U32(rtt - r.ports[port].cost), now, d);
      }
    }
  }

  /** A pong keeps the four tables consistent exactly if it does not carry the router's
      own id, which would become a destination. */
  lemma RecvPongConsistent(r: Router, port: nat, source: nat, sentAt: nat, now: nat)
    requires Consistent(r) && port in r.ports
    ensures Consistent(RecvPong(r, port, source, sentAt, now).0) <==> source != r.id
  {
    PongPortsBacked(r, port, source, sentAt, now);
    PongRoutesBacked(r, port, source, sentAt, now);
    hide Listing, U32, PongNews, PongTable, PongPorts, NextHops, PortBacked, RouteBacked;
  }

  /** When the round-trip time to a neighbour changes by delta, a route through it becomes
      dearer by delta exactly if the sum fits into 16 bits and its destination was no
      neighbour before, or is that neighbour and had the cost measured last. Otherwise it
      becomes direct, or, with a dearer direct link, keeps its old cost, or is truncated. */
  lemma PongShiftsExactly(r: Router, port: nat, source: nat, sentAt: nat, now: nat, d: nat)
    requires port in r.ports && d in r.dv && r.dv[d].nextHop == source
    requires U32(U32(now - sentAt) - r.ports[port].cost) != 0
    ensures var q, c := RecvPong(r, port, source, sentAt, now).0, r.dv[d].cost;
      var delta := U32(now - sentAt) - r.ports[port].cost;
      && d in q.dv && (q.dv[d].nextHop == source || q.dv[d].nextHop == d)
      && (q.dv[d].nextHop == source && q.dv[d].cost == c + delta
          <==> 0 <= c + delta <= INFINITY_COST && if d == source then c == r.ports[port].cost else d !in r.neighbors)
      && (d in r.neighbors && d != source ==> q.dv[d].cost == r.neighbors[d].cost || q.dv[d].cost == c)
      && (d !in r.neighbors && d != source ==> q.dv[d] == Cell(source, U16(c + delta), now))
  {
    hide RecvPong, U32, U16;
    PongRow(r, port, source, sentAt, now, d);
    SumWraps(r.dv[d].cost, U32(now - sentAt) - r.ports[port].cost);
  }

  /** One entry of the table after a pong. */
  lemma PongRow(r: Router, port: nat, source: nat, sentAt: nat, now: nat, d: nat)
    requires port in r.ports && d in r.dv
    ensures var q, rtt := RecvPong(r, port, source, sentAt, now).0, U32(now - sentAt);
      var neighbors, diff := r.neighbors[source := Neighbor(rtt, port)], U32(rtt - r.ports[port].cost);
      d in q.dv && q.dv[d] == PongCell(neighbors, source, rtt, diff, now, d, r.dv[d])
  {
    hide Listing, U32, PongNews, PongPorts, NextHops, Costs, PongCell;
  }

  /** Adding a difference modulo 2^32 is, in 16 bits, adding the difference. */
  lemma SumWraps(cost: nat, delta: int)
    ensures U16(U32(cost + U32(delta))) == U16(cost + delta)
    ensures U16(cost + delta) == cost + delta <==> 0 <= cost + delta <= INFINITY_COST
  {
    WiderWord(cost + U32(delta), 0);
    WiderWord(delta, cost);
  }

  // ---------------------------------------------------------------- expiry

  /** An expired neighbour is reached through no other connected port. */
  lemma SurvivorBacked(r: Router, now: nat, p: nat)
    requires Consistent(r) && p in r.ports && !PortDies(r.ports, p, now) && r.ports[p].connected
    ensures r.ports[p].to !in Gone(r, now)
  {
  }

  lemma RefreshConsistent(r: Router, now: nat)
    requires Consistent(r)
    ensures Consistent(Refresh(r, now))
  {
  }

  /** After a refresh no route leads through a neighbour whose port expired, and no
      entry is older than 45 seconds. */
  lemma RefreshIsFresh(r: Router, now: nat, d: nat)
    requires Consistent(r) && d in Refresh(r, now).dv
    ensures Refresh(r, now).dv[d].nextHop in Refresh(r, now).neighbors
    ensures Refresh(r, now).dv[d].nextHop !in Gone(r, now)
    ensures !Late(now, Refresh(r, now).dv[d].updated, ENTRY_LIMIT)
  {
  }

  // ---------------------------------------------------------------- data

  /** A data packet leaves on the port of the next hop in the table, exactly if there
      is an entry; the lookups never meet a missing key. */
  lemma RecvDataFollowsTable(r: Router, dest: nat)
    requires Consistent(r)
    ensures dest in r.forwarding ==> r.forwarding[dest] in r.neighbors
    ensures RecvData(r, dest) ==
              if dest == r.id then Local
              else if dest in r.dv then Out(r.neighbors[r.dv[dest].nextHop].port)
              else Unreachable
  {
  }
}
