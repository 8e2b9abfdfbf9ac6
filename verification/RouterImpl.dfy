/** The router as the program it is: its handlers update four maps in place. */
module RouterImpl {
  import opened HandlerEffects
  import opened RouterTables
  import opened RouterInvariant
  import opened Words

  class RoutingProtocol {
    const routerId: nat
    const numPorts: nat
    var ports: map<nat, Port>
    var directNeighbors: map<nat, Neighbor>
    var dvMap: map<nat, Cell>
    var forwardingTable: map<nat, nat>

    ghost function State(): Router
      reads this
    {
      Router(routerId, numPorts, ports, directNeighbors, dvMap, forwardingTable)
    }

    constructor (routerId: nat, numPorts: nat)
      ensures State() == Start(routerId, numPorts)
    {
      this.routerId := routerId;
      this.numPorts := numPorts;
      ports, directNeighbors, dvMap, forwardingTable := map[], map[], map[], map[];
      new;
      for i := 0 to numPorts
        invariant ports == StartPorts(i) && directNeighbors == map[] && dvMap == map[] && forwardingTable == map[]
      {
        ports := ports[i := Port(0, 0, 0, false)];
      }
    }

    // -------------------------------------------------------------- sending

    method SendDVUpdate(newPacket: seq<Entry>) returns (sent: seq<Sent>)
      requires forall p :: 0 <= p < numPorts ==> p in ports
      ensures sent == SendUpdate(ports, numPorts, newPacket)
    {
      sent := [];
      for i := 0 to numPorts
        invariant sent == SendUpdate(ports, i, newPacket)
      {
        if ports[i].connected {
          sent := sent + [Sent(i, ports[i].to, newPacket)];
        }
      }
    }

    /** The smallest key of the rest: iteration over a std::map is in key order. */
    method NextKey(todo: set<nat>) returns (k: nat)
      requires todo != {}
      ensures IsLeast(k, todo)
    {
      ghost var m := LeastExists(todo);
      k :| k in todo && forall j <- todo :: k <= j;
    }

    /** All entries of the table, in key order. */
    method ListTable() returns (newPacket: seq<Entry>)
      ensures newPacket == Listing(Costs(dvMap))
    {
      hide Listed;
      newPacket := [];
      var todo := dvMap.Keys;
      ListedStart(Costs(dvMap), todo);
      while todo != {}
        invariant todo <= dvMap.Keys && Listed(Costs(dvMap), todo, newPacket)
        decreases |todo|
      {
        var k := NextKey(todo);
        ListedNext(Costs(dvMap), todo, newPacket, k);
        newPacket := newPacket + [Entry(k, U16(dvMap[k].cost))];
        todo := todo - {k};
      }
      ListedEnd(Costs(dvMap), newPacket);
    }

    method UpdateDVTable() returns (sent: seq<Sent>)
      requires Consistent(State())
      ensures sent == SendUpdate(ports, numPorts, Listing(Costs(dvMap)))
    {
      var newPacket := ListTable();
      sent := SendDVUpdate(newPacket);
    }

    // -------------------------------------------------------------- distance vectors

    method RecvDV(port: nat, source: nat, entries: seq<Entry>, now: nat, junk: nat) returns (sent: seq<Sent>)
      requires Consistent(State())
      modifies this
      ensures State() == RouterTables.RecvDV(old(State()), port, source, entries, now, junk).0
      ensures
        var ads := RouterTables.RecvDV(old(State()), port, source, entries, now, junk).1;
        sent == if ads == [] then [] else SendUpdate(ports, numPorts, ads)
    {
      MeetSource(port, source, entries, junk);
      IntroduceConsistent(old(State()), port, source, entries, junk);
      ghost var start := State();
      var newPacket := [];
      for i := 0 to |entries|
        invariant State() == Relax(start, source, entries[..i], now).0
        invariant newPacket == Relax(start, source, entries[..i], now).1
      {
        RelaxConsistent(start, source, entries[..i], now);
        RelaxNext(start, source, entries, i, now);
        var ads := RelaxEntry(source, entries[i], now);
        newPacket := newPacket + ads;
      }
      assert entries[..|entries|] == entries;
      RecvDVConsistent(old(State()), port, source, entries, now, junk);
      sent := [];
      if newPacket != [] {
        sent := SendDVUpdate(newPacket);
      }
    }

    /** An unknown source becomes a neighbour, at the cost it lists for this router. */
    method MeetSource(port: nat, source: nat, entries: seq<Entry>, junk: nat)
      modifies `directNeighbors
      ensures State() == Introduce(old(State()), port, source, entries, junk)
    {
      if source !in directNeighbors {
        var cost := junk;
        var i := 0;
        while i < |entries|
          invariant 0 <= i <= |entries|
          invariant cost == junk && ListedCost(entries, routerId, junk) == ListedCost(entries[i..], routerId, junk)
        {
          if entries[i].dest == routerId {
            cost := entries[i].cost;
            break;
          }
          i := i + 1;
        }
        directNeighbors := directNeighbors[source := Neighbor(cost, port)];
      }
    }

    method RelaxEntry(source: nat, e: Entry, now: nat) returns (ads: seq<Entry>)
      requires Consistent(State()) && source in directNeighbors
      modifies `dvMap, `forwardingTable
      ensures State() == Apply(old(State()), e.dest, Judge(old(State()), source, e), now)
      ensures JudgeFits(old(State()), source, e)
      ensures ads == Adverts(old(State()), e.dest, Judge(old(State()), source, e))
    {
      JudgeIsSound(State(), source, e);
      ads := [];
      var via := U32(e.cost + directNeighbors[source].cost);
      if e.dest in dvMap {
        var it := dvMap[e.dest];
        if e.cost != INFINITY_COST {
          if it.cost > via {
            ads := SetRoute(e.dest, source, via, now);
          } else if source == it.nextHop {
            if e.dest !in directNeighbors || directNeighbors[e.dest].cost > via {
              ads := SetRoute(e.dest, source, via, now);
            } else {
              ads := SetRoute(e.dest, e.dest, directNeighbors[e.dest].cost, now);
            }
          }
        } else {
          if source == it.nextHop {
            if e.dest in directNeighbors {
              ads := SetRoute(e.dest, e.dest, directNeighbors[e.dest].cost, now);
            } else {
              ads := EraseRoute(e.dest);
            }
          } else {
            var pair := Entry(e.dest, U16(it.cost));
            ads := [pair, pair];
          }
        }
      } else {
        if e.cost != INFINITY_COST && e.dest != routerId {
          ads := SetRoute(e.dest, source, via, now);
        }
      }
    }

    method SetRoute(d: nat, hop: nat, cost: nat, now: nat) returns (ads: seq<Entry>)
      modifies `dvMap, `forwardingTable
      ensures dvMap == old(dvMap)[d := Cell(hop, cost, now)]
      ensures forwardingTable == old(forwardingTable)[d := hop]
      ensures ads == [Entry(d, U16(cost))]
    {
      dvMap := dvMap[d := Cell(hop, cost, now)];
      forwardingTable := forwardingTable[d := hop];
      ads := [Entry(d, U16(cost))];
    }

    /** Both tables have the entry, so neither erase meets the end of the map. */
    method EraseRoute(d: nat) returns (ads: seq<Entry>)
      requires d in dvMap && d in forwardingTable
      modifies `dvMap, `forwardingTable
      ensures dvMap == old(dvMap) - {d} && forwardingTable == old(forwardingTable) - {d}
      ensures ads == [Entry(d, INFINITY_COST)]
    {
      dvMap := dvMap - {d};
      forwardingTable := forwardingTable - {d};
      ads := [Entry(d, INFINITY_COST)];
    }

    // -------------------------------------------------------------- pongs

    method HandlePong(port: nat, source: nat, sentAt: nat, now: nat) returns (sent: seq<Sent>)
      requires Consistent(State()) && port in ports
      modifies this
      ensures State() == RecvPong(old(State()), port, source, sentAt, now).0
      ensures
        var ads := RecvPong(old(State()), port, source, sentAt, now).1;
        sent == if ads == [] then [] else SendUpdate(ports, numPorts, ads)
    {
      hide PongCell, PongNews, Listing, Costs, U16, Consistent, PongPorts, NextHops, SendUpdate;
      ghost var r := State();
      ForwardingIsNextHops(r);
      ConsistentPorts(r);
      var rtt := U32(now - sentAt);
      var was := ports[port];
      MeasurePort(port, source, rtt, now);
      assert ports.Keys == r.ports.Keys by {
        PongKeys(r.ports, r.dv, r.neighbors, port, source, rtt, 0, now);
      }
      var diff := U32(rtt - was.cost);
      var newPacket := ShiftTable(source, rtt, diff, !was.connected, now);
      if source !in dvMap {
        var all := AddDirect(source, rtt, now);
        newPacket := newPacket + all;
      }
      sent := [];
      if newPacket != [] {
        sent := SendDVUpdate(newPacket);
      }
    }

    /** The port now leads to the source, and no other port does. */
    method MeasurePort(port: nat, source: nat, rtt: nat, now: nat)
      requires port in ports
      modifies `ports, `directNeighbors
      ensures ports == PongPorts(old(ports), port, source, rtt, now)
      ensures directNeighbors == old(directNeighbors)[source := Neighbor(rtt, port)]
    {
      ports := ports[port := ports[port].(to := source, connected := true, updated := now)];
      directNeighbors := directNeighbors[source := Neighbor(rtt, port)];
      DisconnectOthers(port, source);
      ports := ports[port := ports[port].(cost := rtt)];
    }

    /** A new direct destination is advertised with the whole table. */
    method AddDirect(source: nat, rtt: nat, now: nat) returns (all: seq<Entry>)
      requires forwardingTable == NextHops(dvMap)
      modifies `dvMap, `forwardingTable
      ensures dvMap == old(dvMap)[source := Cell(source, rtt, now)] && forwardingTable == NextHops(dvMap)
      ensures all == Listing(Costs(dvMap))
    {
      dvMap := dvMap[source := Cell(source, rtt, now)];
      forwardingTable := forwardingTable[source := source];
      all := ListTable();
    }

    /** No other port may lead to the same neighbour. */
    method DisconnectOthers(port: nat, source: nat)
      modifies `ports
      ensures ports == map p | p in old(ports) ::
                if p != port && old(ports)[p].to == source then old(ports)[p].(connected := false) else old(ports)[p]
    {
      var todo := ports.Keys;
      while todo != {}
        invariant todo <= old(ports).Keys
        invariant ports == map p | p in old(ports) ::
          if p !in todo && p != port && old(ports)[p].to == source
          then old(ports)[p].(connected := false) else old(ports)[p]
        decreases |todo|
      {
        var p := NextKey(todo);
        if p != port && ports[p].to == source {
          ports := ports[p := ports[p].(connected := false)];
        }
        todo := todo - {p};
      }
    }

    /** Apply a changed round-trip time to every table entry, in key order. */
    method ShiftTable(source: nat, rtt: nat, diff: nat, disconnected: bool, now: nat) returns (newPacket: seq<Entry>)
      requires source in directNeighbors && forwardingTable == NextHops(dvMap)
      modifies `dvMap, `forwardingTable
      ensures dvMap == PongTable(old(dvMap), directNeighbors, source, rtt, diff, now)
      ensures forwardingTable == NextHops(dvMap)
      ensures newPacket == Listing(PongNews(old(dvMap), dvMap, source, rtt, diff, !disconnected))
    {
      hide PongCell, IsNews, U16, Listing, Listed;
      ghost var r := State();
      ghost var table := PongTable(r.dv, directNeighbors, source, rtt, diff, now);
      ghost var news := PongNews(r.dv, table, source, rtt, diff, !disconnected);
      newPacket := [];
      var todo := dvMap.Keys;
      ListedStart(news, todo);
      while todo != {}
        invariant todo <= r.dv.Keys && directNeighbors == r.neighbors
        invariant dvMap == Mixed(r.dv, table, todo) && forwardingTable == NextHops(dvMap)
        invariant Listed(news, todo, newPacket)
        decreases |todo|
      {
        var k := NextKey(todo);
        ListedNext(news, todo, newPacket, k);
        MixedNext(r.dv, table, todo, k);
        var ads := ShiftEntry(k, source, rtt, diff, disconnected && source in dvMap, now);
        assert ads == EntryOf(news, k);
        newPacket := newPacket + ads;
        todo := todo - {k};
      }
      assert dvMap == table;
      ListedEnd(news, newPacket);
    }

    method ShiftEntry(d: nat, source: nat, rtt: nat, diff: nat, returning: bool, now: nat) returns (ads: seq<Entry>)
      requires d in dvMap && forwardingTable == NextHops(dvMap)
      modifies `dvMap, `forwardingTable
      ensures dvMap == old(dvMap)[d := PongCell(directNeighbors, source, rtt, diff, now, d, old(dvMap)[d])]
      ensures forwardingTable == NextHops(dvMap)
      ensures ads == if IsNews(d, old(dvMap)[d], source, rtt, diff, returning) then [Entry(d, U16(dvMap[d].cost))]
                     else []
    {
      ads := [];
      var it := dvMap[d];
      if diff != 0 {
        if it.nextHop == source {
          var mayChangeCost := U16(U32(it.cost + diff));
          if d in directNeighbors {
            if directNeighbors[d].cost <= mayChangeCost {
              it := it.(nextHop := d, cost := directNeighbors[d].cost);
              forwardingTable := forwardingTable[d := d];
            }
          } else {
            it := it.(cost := mayChangeCost);
          }
          it := it.(updated := now);
          ads := [Entry(d, U16(it.cost))];
        } else if d == source && rtt <= it.cost {
          it := Cell(source, rtt, now);
          forwardingTable := forwardingTable[d := source];
          ads := [Entry(d, U16(it.cost))];
        } else if returning {
          ads := [Entry(d, U16(it.cost))];
        }
      } else if it.nextHop == source || d == source {
        it := it.(updated := now);
      }
      dvMap := dvMap[d := it];
    }

    // -------------------------------------------------------------- expiry

    method RefreshDV(now: nat) returns (sent: seq<Sent>)
      requires Consistent(State())
      modifies this
      ensures State() == Refresh(old(State()), now)
      ensures Advertises(RefreshAds(old(State()), now), old(State()), now)
      ensures TellsRefresh(RefreshAds(old(State()), now), old(State()), now)
      ensures
        var ads := RefreshAds(old(State()), now);
        sent == if ads == [] then [] else SendUpdate(ports, numPorts, ads)
    {
      hide Consistent, GoneBelow, PortsBelow, Fallback, AdsFor, Late, SendUpdate, NextHops, KeyOrder, LostOrder,
        TellsRefresh;
      ghost var r := State();
      ForwardingIsNextHops(r);
      RefreshConsistent(r, now);
      RefreshTellsExactly(r, now);
      ConsistentPorts(Refresh(r, now));
      ghost var gone := Gone(r, now);
      var toDelete := ExpirePorts(now);
      ghost var done;
      var newPacket;
      newPacket, done := RetireLost(toDelete, gone, now);
      newPacket, done := RetireOld(r.dv, gone, newPacket, done, now);
      AdsOfConcat(directNeighbors, LostOrder(r, now, numPorts), KeyOrder(Stale(r.dv, gone, now)));
      sent := [];
      if newPacket != [] {
        sent := SendDVUpdate(newPacket);
      }
    }

    /** Disconnect the ports that were silent for too long, forget their neighbours, and
        collect the destinations reached through them. */
    method ExpirePorts(now: nat) returns (toDelete: seq<nat>)
      requires Consistent(State())
      modifies `ports, `directNeighbors
      ensures ports == PortsBelow(old(ports), now, numPorts)
      ensures directNeighbors == old(directNeighbors) - Gone(old(State()), now)
      ensures forall d :: d in toDelete <==> d in dvMap && dvMap[d].nextHop in Gone(old(State()), now)
      ensures Distinct(toDelete) && toDelete == LostOrder(old(State()), now, numPorts)
    {
      hide Consistent, Late, PortsBelow, GoneBelow, PortDies, KeyOrder;
      ghost var r := State();
      NoneExpired(r, now);
      toDelete := [];
      for i := 0 to numPorts
        invariant ports == PortsBelow(r.ports, now, i)
        invariant directNeighbors == r.neighbors - GoneBelow(r.ports, now, i)
        invariant forall d :: d in toDelete <==> d in dvMap && dvMap[d].nextHop in GoneBelow(r.ports, now, i)
        invariant Distinct(toDelete) && toDelete == LostOrder(r, now, i)
      {
        GoneNext(r, now, i);
        if ports[i].connected && Late(now, ports[i].updated, PORT_LIMIT) {
          var to := ports[i].to;
          ports := ports[i := ports[i].(connected := false, cost := 0)];
          if to in directNeighbors {
            directNeighbors := directNeighbors - {to};
          }
          var lost := CollectRoutes(to);
          DistinctConcat(toDelete, lost);
          toDelete := toDelete + lost;
        }
      }
    }

    /** The destinations whose next hop is the given neighbour, in key order. */
    method CollectRoutes(to: nat) returns (lost: seq<nat>)
      ensures forall d :: d in lost <==> d in dvMap && dvMap[d].nextHop == to
      ensures Distinct(lost) && lost == KeyOrder(Through(dvMap, to))
    {
      lost := [];
      var todo := dvMap.Keys;
      ghost var all := Through(dvMap, to);
      assert all * todo == all;
      while todo != {}
        invariant todo <= dvMap.Keys
        invariant forall d :: d in lost <==> d in dvMap && d !in todo && dvMap[d].nextHop == to
        invariant Distinct(lost) && KeyOrder(all) == lost + KeyOrder(all * todo)
        decreases |todo|
      {
        var k := NextKey(todo);
        KeyOrderNext(all, todo, lost, k);
        if dvMap[k].nextHop == to {
          lost := lost + [k];
        }
        todo := todo - {k};
      }
      assert all * todo == {};
    }

    /** A destination falls back to its direct link, or leaves both tables. */
    method Retire(d: nat, now: nat) returns (ad: Entry)
      requires d in dvMap && forwardingTable == NextHops(dvMap)
      modifies `dvMap, `forwardingTable
      ensures ad == FallbackAd(directNeighbors, d)
      ensures dvMap == if d in directNeighbors then old(dvMap)[d := Cell(d, directNeighbors[d].cost, now)]
                       else old(dvMap) - {d}
      ensures forwardingTable == NextHops(dvMap)
    {
      if d in directNeighbors {
        dvMap := dvMap[d := Cell(d, directNeighbors[d].cost, now)];
        forwardingTable := forwardingTable[d := d];
        ad := Entry(d, U16(dvMap[d].cost));
      } else {
        dvMap := dvMap - {d};
        forwardingTable := forwardingTable - {d};
        ad := Entry(d, INFINITY_COST);
      }
    }

    /** The second loop: destinations that were reached through an expired neighbour. */
    method RetireLost(toDelete: seq<nat>, ghost gone: set<nat>, now: nat) returns (newPacket: seq<Entry>,
            ghost done: set<nat>)
      requires forwardingTable == NextHops(dvMap) && Distinct(toDelete)
      requires forall d :: d in toDelete <==> d in dvMap && dvMap[d].nextHop in gone
      modifies `dvMap, `forwardingTable
      ensures done == set d | d in old(dvMap) && old(dvMap)[d].nextHop in gone
      ensures dvMap == Fallback(old(dvMap), directNeighbors, done, now) && forwardingTable == NextHops(dvMap)
      ensures AdsFor(newPacket, directNeighbors, done) && newPacket == AdsOf(directNeighbors, toDelete)
    {
      hide AdsFor, Fallback;
      newPacket := [];
      done := {};
      FallbackNone(dvMap, directNeighbors, now);
      AdsNone(directNeighbors);
      ghost var dv := dvMap;
      for i := 0 to |toDelete|
        invariant forall d :: d in done <==> d in toDelete[..i]
        invariant dvMap == Fallback(dv, directNeighbors, done, now) && forwardingTable == NextHops(dvMap)
        invariant AdsFor(newPacket, directNeighbors, done) && newPacket == AdsOf(directNeighbors, toDelete[..i])
      {
        var d := toDelete[i];
        assert d !in done && toDelete[..i + 1] == toDelete[..i] + [d];
        AdsOfConcat(directNeighbors, toDelete[..i], [d]);
        FallbackNext(dv, directNeighbors, done, d, now);
        AdsNext(newPacket, directNeighbors, done, d);
        var ad := Retire(d, now);
        newPacket := newPacket + [ad];
        done := done + {d};
      }
      assert toDelete[..|toDelete|] == toDelete;
    }

    /** The third loop: entries that were not confirmed for too long. */
    method RetireOld(ghost dv: map<nat, Cell>, ghost gone: set<nat>, before: seq<Entry>, ghost lost: set<nat>, now: nat)
      returns (newPacket: seq<Entry>, ghost done: set<nat>)
      requires dvMap == Fallback(dv, directNeighbors, lost, now) && forwardingTable == NextHops(dvMap)
      requires AdsFor(before, directNeighbors, lost)
      requires lost == set d | d in dv && dv[d].nextHop in gone
      modifies `dvMap, `forwardingTable
      ensures done == ExpiredKeys(dv, gone, now)
      ensures dvMap == Fallback(dv, directNeighbors, done, now) && forwardingTable == NextHops(dvMap)
      ensures AdsFor(newPacket, directNeighbors, done)
      ensures newPacket == before + AdsOf(directNeighbors, KeyOrder(Stale(dv, gone, now)))
    {
      hide AdsFor, Late, KeyOrder, AdsOf, FallbackAd, NextHops, IsLeast, Listing, TellsRefresh, Consistent;
      NowIsFresh(now);
      newPacket := before;
      done := lost;
      var todo := dvMap.Keys;
      ghost var keys := todo;
      ghost var aged := [];
      ghost var all := Stale(dv, gone, now);
      assert all * todo == all;
      AdsOfNothing(directNeighbors);
      while todo != {}
        invariant todo <= keys && done <= dv.Keys
        invariant forall d <- dv :: d in done <==>
          d in lost || (d in keys && d !in todo && Late(now, dv[d].updated, ENTRY_LIMIT))
        invariant dvMap == Fallback(dv, directNeighbors, done, now) && forwardingTable == NextHops(dvMap)
        invariant AdsFor(newPacket, directNeighbors, done) && newPacket == before + AdsOf(directNeighbors, aged)
        invariant KeyOrder(all) == aged + KeyOrder(all * todo)
        decreases |todo|
      {
        var k := NextKey(todo);
        KeyOrderNext(all, todo, aged, k);
        if Late(now, dvMap[k].updated, ENTRY_LIMIT) {
          assert k !in done && k in all;
          AdsOfAppend(directNeighbors, before, aged, k);
          aged := aged + [k];
          FallbackNext(dv, directNeighbors, done, k, now);
          AdsNext(newPacket, directNeighbors, done, k);
          var ad := Retire(k, now);
          newPacket := newPacket + [ad];
          done := done + {k};
        }
        todo := todo - {k};
      }
      assert all * todo == {};
      KeyOrderNone();
      assert aged + [] == aged;
    }

    // -------------------------------------------------------------- data

    method RecvDATA(dest: nat) returns (o: Delivery)
      requires Consistent(State())
      ensures o == if dest == routerId then Local
                   else if dest in dvMap then Out(directNeighbors[dvMap[dest].nextHop].port)
                   else Unreachable
    {
      RecvDataFollowsTable(State(), dest);
      if dest == routerId {
        o := Local;
      } else if dest !in forwardingTable {
        o := Unreachable;
      } else {
        o := Out(directNeighbors[forwardingTable[dest]].port);
      }
    }
  }

  lemma ConsistentPorts(r: Router)
    requires Consistent(r)
    ensures forall p :: 0 <= p < r.numPorts ==> p in r.ports
  {
  }

  lemma ForwardingIsNextHops(r: Router)
    requires Consistent(r)
    ensures r.forwarding == NextHops(r.dv)
  {
  }

  ghost predicate Distinct(s: seq<nat>) {
    forall i, j :: 0 <= i < j < |s| ==> s[i] != s[j]
  }

  lemma DistinctConcat(s: seq<nat>, t: seq<nat>)
    requires Distinct(s) && Distinct(t) && forall d <- t :: d !in s
    ensures Distinct(s + t)
  {
    forall i, j | 0 <= i < j < |s + t|
      ensures (s + t)[i] != (s + t)[j]
    {
      if i < |s| <= j {
        assert (s + t)[i] in s && (s + t)[j] in t;
      }
    }
  }

  lemma NoneExpired(r: Router, now: nat)
    ensures PortsBelow(r.ports, now, 0) == r.ports && GoneBelow(r.ports, now, 0) == {}
  {
  }

  /** The neighbour of a port that expires was reached through no port before it. */
  lemma GoneNext(r: Router, now: nat, i: nat)
    requires Consistent(r) && i < r.numPorts
    ensures GoneBelow(r.ports, now, i + 1) ==
              GoneBelow(r.ports, now, i) + (if PortDies(r.ports, i, now) then {r.ports[i].to} else {})
    ensures PortsBelow(r.ports, now, i + 1) ==
              if PortDies(r.ports, i, now)
              then PortsBelow(r.ports, now, i)[i := r.ports[i].(connected := false, cost := 0)]
              else PortsBelow(r.ports, now, i)
    ensures PortDies(r.ports, i, now) ==> r.ports[i].to !in GoneBelow(r.ports, now, i)
    ensures i in PortsBelow(r.ports, now, i) && PortsBelow(r.ports, now, i)[i] == r.ports[i]
    ensures PortDies(r.ports, i, now) <==> r.ports[i].connected && Late(now, r.ports[i].updated, PORT_LIMIT)
  {
  }

  lemma FallbackNone(dv: map<nat, Cell>, neighbors: map<nat, Neighbor>, now: nat)
    ensures Fallback(dv, neighbors, {}, now) == dv
  {
  }

  lemma FallbackNext(dv: map<nat, Cell>, neighbors: map<nat, Neighbor>, done: set<nat>, d: nat, now: nat)
    requires d in dv && d !in done
    ensures d in Fallback(dv, neighbors, done, now)
    ensures Fallback(dv, neighbors, done + {d}, now) ==
              if d in neighbors then Fallback(dv, neighbors, done, now)[d := Cell(d, neighbors[d].cost, now)]
              else Fallback(dv, neighbors, done, now) - {d}
  {
  }

  lemma KeyOrderNone()
    ensures KeyOrder({}) == []
  {
  }

  lemma KeyOrderFirst(s: set<nat>, k: nat)
    requires IsLeast(k, s)
    ensures KeyOrder(s) == [k] + KeyOrder(s - {k})
  {
    assert Least(s) == k;
  }

  /** The least of the keys still to be visited comes next. */
  lemma KeyOrderNext(all: set<nat>, todo: set<nat>, front: seq<nat>, k: nat)
    requires KeyOrder(all) == front + KeyOrder(all * todo) && IsLeast(k, todo)
    ensures KeyOrder(all) == (if k in all then front + [k] else front) + KeyOrder(all * (todo - {k}))
  {
    hide KeyOrder;
    var rest := all * (todo - {k});
    if k in all {
      KeyOrderFirst(all * todo, k);
      assert all * todo - {k} == rest;
      assert front + ([k] + KeyOrder(rest)) == front + [k] + KeyOrder(rest);
    } else {
      assert all * todo == rest;
    }
  }

  lemma AdsOfConcat(neighbors: map<nat, Neighbor>, x: seq<nat>, y: seq<nat>)
    ensures AdsOf(neighbors, x + y) == AdsOf(neighbors, x) + AdsOf(neighbors, y)
  {
  }

  lemma AdsOfAppend(neighbors: map<nat, Neighbor>, before: seq<Entry>, keys: seq<nat>, k: nat)
    ensures (before + AdsOf(neighbors, keys)) + [FallbackAd(neighbors, k)] == before + AdsOf(neighbors, keys + [k])
  {
    AdsOfConcat(neighbors, keys, [k]);
    assert AdsOf(neighbors, [k]) == [FallbackAd(neighbors, k)];
  }

  lemma AdsOfNothing(neighbors: map<nat, Neighbor>)
    ensures AdsOf(neighbors, []) == []
  {
  }

  lemma AdsNext(ads: seq<Entry>, neighbors: map<nat, Neighbor>, done: set<nat>, d: nat)
    requires AdsFor(ads, neighbors, done) && d !in done
    ensures AdsFor(ads + [FallbackAd(neighbors, d)], neighbors, done + {d})
  {
  }

  lemma AdsNone(neighbors: map<nat, Neighbor>)
    ensures AdsFor([], neighbors, {})
  {
  }

  lemma NowIsFresh(now: nat)
    ensures !Late(now, now, ENTRY_LIMIT)
  {
  }

  ghost predicate JudgeFits(r: Router, source: nat, e: Entry)
    requires source in r.neighbors
  {
    var v := Judge(r, source, e);
    v.Keep? && v.echoes > 0 ==> e.dest in r.dv
  }

  lemma {:induction false} RelaxNext(r: Router, source: nat, entries: seq<Entry>, i: nat, now: nat)
    requires source in r.neighbors && i < |entries|
    ensures
      var (t, ads) := Relax(r, source, entries[..i], now);
      var v := Judge(t, source, entries[i]);
      && JudgeFits(t, source, entries[i])
      && Relax(r, source, entries[..i + 1], now) ==
           (Apply(t, entries[i].dest, v, now), ads + Adverts(t, entries[i].dest, v))
  {
    assert entries[..i + 1][..i] == entries[..i];
  }

  // ---------------------------------------------------------------- iteration

  /** The table while the keys in todo are still to be visited. */
  ghost function Mixed(dv: map<nat, Cell>, table: map<nat, Cell>, todo: set<nat>): map<nat, Cell>
    requires dv.Keys == table.Keys
  {
    map d | d in dv :: if d in todo then dv[d] else table[d]
  }

  lemma MixedNext(dv: map<nat, Cell>, table: map<nat, Cell>, todo: set<nat>, k: nat)
    requires dv.Keys == table.Keys && k in todo && k in dv
    ensures Mixed(dv, table, todo)[k] == dv[k]
    ensures Mixed(dv, table, todo - {k}) == Mixed(dv, table, todo)[k := table[k]]
  {
  }

  ghost function Rest(m: map<nat, nat>, todo: set<nat>): map<nat, nat> {
    map d | d in m && d in todo :: m[d]
  }

  /** The keys before todo have been listed in front. */
  ghost predicate Listed(m: map<nat, nat>, todo: set<nat>, front: seq<Entry>) {
    Listing(m) == front + Listing(Rest(m, todo))
  }

  function EntryOf(m: map<nat, nat>, k: nat): seq<Entry> {
    if k in m then [Entry(k, m[k])] else []
  }

  lemma ListedStart(m: map<nat, nat>, keys: set<nat>)
    requires m.Keys <= keys
    ensures Listed(m, keys, [])
  {
    assert Rest(m, keys) == m;
  }

  lemma ListedNext(m: map<nat, nat>, todo: set<nat>, front: seq<Entry>, k: nat)
    requires Listed(m, todo, front) && IsLeast(k, todo)
    ensures Listed(m, todo - {k}, front + EntryOf(m, k))
  {
    var r := Rest(m, todo);
    var s := Rest(m, todo - {k});
    if k in m {
      ListingFirst(r, k);
      assert r - {k} == s;
    } else {
      assert r == s;
    }
    hide Listing;
    assert front + (EntryOf(m, k) + Listing(s)) == (front + EntryOf(m, k)) + Listing(s);
  }

  lemma ListedEnd(m: map<nat, nat>, front: seq<Entry>)
    requires Listed(m, {}, front)
    ensures front == Listing(m)
  {
  }
}
