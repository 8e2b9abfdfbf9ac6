/** What the handlers of the router do to every single entry of the tables, and what they
    tell about it: an account in plain arithmetic that does not use the steps of the
    handlers. */
module HandlerEffects {
  import opened Advertising
  import opened RouterTables
  import opened RouterInvariant
  import opened Words

  /** Milliseconds from one time to another on a clock of 32 bits. */
  function Elapsed(since: int, now: int): (ms: nat) {
    (now - since) % 0x1_0000_0000
  }

  /** The destinations in keys, each once, in ascending order, at their costs in dv. */
  ghost predicate TellsOf(ads: seq<Entry>, dv: map<nat, Cell>, keys: set<nat>) {
    && (forall i, j :: 0 <= i < j < |ads| ==> ads[i].dest < ads[j].dest)
    && (forall e <- ads :: e.dest in keys && e.dest in dv && e.cost == dv[e.dest].cost % 0x1_0000)
    && (forall k <- keys :: exists e <- ads :: e.dest == k)
  }

  lemma ListingTells(m: map<nat, nat>, dv: map<nat, Cell>)
    requires m.Keys <= dv.Keys && forall d :: d in m ==> m[d] == dv[d].cost % 0x1_0000
    ensures TellsOf(Listing(m), dv, m.Keys)
  {
    hide Listing;
    forall i, j | 0 <= i < j < |Listing(m)|
      ensures Listing(m)[i].dest < Listing(m)[j].dest
    {
      ListingAscending(m, i, j);
    }
    forall e <- Listing(m)
      ensures e.dest in m && e.cost == m[e.dest]
    {
      var i :| 0 <= i < |Listing(m)| && Listing(m)[i] == e;
      ListingSound(m, i);
    }
    forall k <- m.Keys
      ensures exists e <- Listing(m) :: e.dest == k
    {
      ListingComplete(m, k);
      assert Entry(k, m[k]) in Listing(m);
    }
  }

  /** A periodic update tells every destination of the table. */
  lemma UpdateTells(dv: map<nat, Cell>)
    ensures TellsOf(Listing(Costs(dv)), dv, dv.Keys)
  {
    ListingTells(Costs(dv), dv);
    assert Costs(dv).Keys == dv.Keys;
    hide Listing, TellsOf;
  }

  // ---------------------------------------------------------------- pongs

  /** The port of a pong leads to its source from now on, and no other port does. */
  lemma PongPortsExactly(r: Router, port: nat, source: nat, sentAt: nat, now: nat, p: nat)
    requires port in r.ports && p in r.ports
    ensures var q, rtt := RecvPong(r, port, source, sentAt, now).0, Elapsed(sentAt, now);
      && q.ports.Keys == r.ports.Keys && q.neighbors == r.neighbors[source := Neighbor(rtt, port)]
      && q.id == r.id && q.numPorts == r.numPorts
      && q.ports[p] == if p == port then Port(source, rtt, now, true)
                       else r.ports[p].(connected := r.ports[p].connected && r.ports[p].to != source)
  {
    hide Listing, PongNews, PongTable, NextHops, Costs;
  }

  /** Does the round-trip time on the port stay the same? */
  predicate Unchanged(r: Router, port: nat, sentAt: nat, now: nat)
    requires port in r.ports
  {
    Elapsed(r.ports[port].cost, Elapsed(sentAt, now)) == 0
  }

  /** Does the pong of source confirm the route to d: one through source, or the direct one,
      unless it is dearer than the route in use? */
  predicate Confirms(r: Router, port: nat, source: nat, sentAt: nat, now: nat, d: nat)
    requires port in r.ports && d in r.dv
  {
    || r.dv[d].nextHop == source
    || (d == source && (Unchanged(r, port, sentAt, now) || Elapsed(sentAt, now) <= r.dv[d].cost))
  }

  /** A pong confirms exactly these routes; every other entry is as before, and with an
      unchanged time nothing but the time of the confirmed ones changes. */
  lemma PongConfirms(r: Router, port: nat, source: nat, sentAt: nat, now: nat, d: nat)
    requires port in r.ports && d in r.dv
    ensures var q := RecvPong(r, port, source, sentAt, now).0;
      && d in q.dv
      && (if Confirms(r, port, source, sentAt, now, d) then q.dv[d].updated == now else q.dv[d] == r.dv[d])
      && (Unchanged(r, port, sentAt, now) ==> q.dv[d].(updated := 0) == r.dv[d].(updated := 0))
  {
    hide RecvPong, U16;
    PongRow(r, port, source, sentAt, now, d);
  }

  /** The cost of the direct link to d after a pong, if there is one. */
  function DirectAfter(r: Router, source: nat, rtt: nat, d: nat): (c: seq<nat>)
    ensures |c| <= 1
  {
    if d == source then [rtt] else if d in r.neighbors then [r.neighbors[d].cost] else []
  }

  /** When the time changed: a route through the source takes on the change, unless there is
      a direct link. If that is not dearer than the changed route it takes over; if it is, the
      old cost stays. The route to the source itself becomes direct if that is not dearer. */
  lemma PongReroutes(r: Router, port: nat, source: nat, sentAt: nat, now: nat, d: nat)
    requires port in r.ports && d in r.dv && !Unchanged(r, port, sentAt, now)
    ensures var q, c, rtt := RecvPong(r, port, source, sentAt, now).0, r.dv[d], Elapsed(sentAt, now);
      var direct, shifted := DirectAfter(r, source, rtt, d), (c.cost + rtt - r.ports[port].cost) % 0x1_0000;
      d in q.dv &&
      q.dv[d] ==
        if c.nextHop == source then
          if direct == [] then Cell(source, shifted, now)
          else if direct[0] <= shifted then Cell(d, direct[0], now)
          else Cell(source, c.cost, now)
        else if d == source && rtt <= c.cost then Cell(source, rtt, now)
        else c
  {
    hide RecvPong, U16, U32;
    PongRow(r, port, source, sentAt, now, d);
    ElapsedIs(sentAt, now);
    ElapsedIs(r.ports[port].cost, Elapsed(sentAt, now));
    SumWraps(r.dv[d].cost, Elapsed(sentAt, now) - r.ports[port].cost);
    U16Is(r.dv[d].cost + Elapsed(sentAt, now) - r.ports[port].cost);
  }

  lemma ElapsedIs(since: int, now: int)
    ensures Elapsed(since, now) == U32(now - since)
  {
  }

  lemma U16Is(n: int)
    ensures U16(n) == n % 0x1_0000
  {
  }

  /** An unknown source becomes a direct destination; otherwise the destinations stay. The
      next hops are those of the table. */
  lemma PongMeets(r: Router, port: nat, source: nat, sentAt: nat, now: nat)
    requires port in r.ports
    ensures var q := RecvPong(r, port, source, sentAt, now).0;
      && q.dv.Keys == r.dv.Keys + {source}
      && (source !in r.dv ==> q.dv[source] == Cell(source, Elapsed(sentAt, now), now))
      && q.forwarding == map d | d in q.dv :: q.dv[d].nextHop
  {
    hide Listing, PongNews, PongPorts, Costs, PongCell;
  }

  /** The destinations a pong tells, first of all: with a changed time those whose route is
      through the source, the source itself if its route became direct, and all known ones if
      the port was not connected and the source is known. */
  function Touched(r: Router, port: nat, source: nat, sentAt: nat, now: nat): set<nat>
    requires port in r.ports
  {
    set d | d in r.dv && !Unchanged(r, port, sentAt, now)
            && (r.dv[d].nextHop == source || (d == source && Elapsed(sentAt, now) <= r.dv[d].cost)
                || (!r.ports[port].connected && source in r.dv))
  }

  /** What a pong tells: these destinations and, when the source is new, the whole table, each
      in ascending order at the costs after the pong. */
  lemma PongTellsExactly(r: Router, port: nat, source: nat, sentAt: nat, now: nat)
    returns (news: seq<Entry>, all: seq<Entry>)
    requires port in r.ports
    ensures var (q, ads) := RecvPong(r, port, source, sentAt, now);
      && ads == news + all && TellsOf(news, q.dv, Touched(r, port, source, sentAt, now))
      && if source in r.dv then all == [] else TellsOf(all, q.dv, q.dv.Keys)
  {
    hide Listing, PongCell, PongPorts, NextHops, Costs, U32, TellsOf;
    var rtt := U32(now - sentAt);
    var diff := U32(rtt - r.ports[port].cost);
    var q := RecvPong(r, port, source, sentAt, now).0;
    var table := PongTable(r.dv, q.neighbors, source, rtt, diff, now);
    var m := PongNews(r.dv, table, source, rtt, diff, r.ports[port].connected);
    ElapsedIs(sentAt, now);
    ElapsedIs(r.ports[port].cost, rtt);
    assert m.Keys == Touched(r, port, source, sentAt, now);
    ListingTells(m, q.dv);
    UpdateTells(q.dv);
    news, all := Listing(m), if source in r.dv then [] else Listing(Costs(q.dv));
    ghost var none: seq<Entry> := [];
    assert Listing(m) + none == Listing(m);
  }

  /** The last word on a destination after a pong is its cost in the table then. */
  lemma PongTells(r: Router, port: nat, source: nat, sentAt: nat, now: nat, d: nat)
    requires port in r.ports
    ensures var (q, ads) := RecvPong(r, port, source, sentAt, now);
      if LastWord(ads, d) == [] then SameRoute(r.dv, q.dv, d) else LastWord(ads, d) == [Entry(d, Current(q.dv, d))]
  {
    hide RecvPong, SameRoute, U16;
    var (q, ads) := RecvPong(r, port, source, sentAt, now);
    if LastWord(ads, d) == [] {
      PongTellsChanges(r, port, source, sentAt, now, d);
    } else {
      LastIsOne(ads, d);
      PongAds(r, port, source, sentAt, now, LastWord(ads, d)[0]);
    }
  }

  lemma {:induction false} LastIsOne(ads: seq<Entry>, d: nat)
    requires LastWord(ads, d) != []
    ensures |LastWord(ads, d)| == 1 && LastWord(ads, d)[0] in ads && LastWord(ads, d)[0].dest == d
  {
    if ads[|ads| - 1].dest == d {
    } else {
      LastIsOne(ads[..|ads| - 1], d);
    }
  }

  // ---------------------------------------------------------------- expiry

  /** A connected port on which nothing was heard for more than 15 seconds. */
  predicate Silent(p: Port, now: nat) {
    p.connected && Elapsed(p.updated, now) > 15000
  }

  /** A neighbour behind a silent port. */
  ghost predicate IsLost(r: Router, n: nat, now: nat) {
    exists p :: p in r.ports && r.ports[p].to == n && Silent(r.ports[p], now)
  }

  /** Expiry disconnects exactly the silent ports and forgets exactly the neighbours behind
      them. */
  lemma RefreshPortsExactly(r: Router, now: nat, p: nat, n: nat)
    requires Consistent(r)
    ensures var q := Refresh(r, now);
      && q.id == r.id && q.numPorts == r.numPorts && q.ports.Keys == r.ports.Keys
      && (p in r.ports ==>
            q.ports[p] == if Silent(r.ports[p], now) then r.ports[p].(connected := false, cost := 0) else r.ports[p])
      && (n in q.neighbors <==> n in r.neighbors && !IsLost(r, n, now))
      && (n in q.neighbors ==> q.neighbors[n] == r.neighbors[n])
  {
    GoneIsLost(r, now, n);
    hide NextHops, Fallback, Gone;
  }

  lemma GoneIsLost(r: Router, now: nat, n: nat)
    requires Consistent(r)
    ensures n in Gone(r, now) <==> IsLost(r, n, now)
  {
    if p: nat :| p in r.ports && r.ports[p].to == n && Silent(r.ports[p], now) {
      assert PortDies(r.ports, p, now);
    }
  }

  /** A neighbour is lost exactly if the port at which it is reached is silent. */
  lemma LostExactly(r: Router, now: nat, n: nat)
    requires Consistent(r) && n in r.neighbors
    ensures IsLost(r, n, now)
        <==> r.neighbors[n].port in r.ports && r.ports[r.neighbors[n].port].to == n
             && Silent(r.ports[r.neighbors[n].port], now)
  {
    if p: nat :| p in r.ports && r.ports[p].to == n && Silent(r.ports[p], now) {
      assert PortBacked(r, p);
    }
  }

  /** An entry stays exactly if its next hop is not lost and it was confirmed at most 45
      seconds ago. */
  ghost predicate Stays(r: Router, d: nat, now: nat)
    requires d in r.dv
  {
    !IsLost(r, r.dv[d].nextHop, now) && Elapsed(r.dv[d].updated, now) <= 45000
  }

  /** Entries that stay are unchanged; every other one becomes direct, if its destination is
      still a neighbour, or disappears. */
  lemma RefreshExactly(r: Router, now: nat, d: nat)
    requires Consistent(r)
    ensures var q := Refresh(r, now);
      if d !in r.dv then d !in q.dv && d !in q.forwarding
      else if Stays(r, d, now) then
        d in q.dv && q.dv[d] == r.dv[d] && d in q.forwarding && q.forwarding[d] == r.dv[d].nextHop
      else if d in r.neighbors && !IsLost(r, d, now) then
        d in q.dv && q.dv[d] == Cell(d, r.neighbors[d].cost, now) && d in q.forwarding && q.forwarding[d] == d
      else d !in q.dv && d !in q.forwarding
  {
    GoneIsLost(r, now, d);
    if d in r.dv {
      GoneIsLost(r, now, r.dv[d].nextHop);
      ElapsedIs(r.dv[d].updated, now);
    }
    hide Gone, IsLost, PortsBelow, Elapsed, U32;
  }

  /** A route that was confirmed at most 45 seconds ago, through a port that is alive, is
      unchanged by expiry. */
  lemma ConfirmedStays(r: Router, now: nat, d: nat)
    requires Consistent(r) && d in r.dv && Elapsed(r.dv[d].updated, now) <= 45000
    requires var n := r.dv[d].nextHop;
      n in r.neighbors ==> r.neighbors[n].port in r.ports && !Silent(r.ports[r.neighbors[n].port], now)
    ensures d in Refresh(r, now).dv && Refresh(r, now).dv[d] == r.dv[d]
  {
    assert RouteBacked(r, d);
    LostExactly(r, now, r.dv[d].nextHop);
    RefreshExactly(r, now, d);
    hide Refresh, IsLost, Silent;
  }

  /** So is every route that a pong confirmed: through its source for 15 seconds in any case,
      and for 45 as long as the port to the next hop is heard. */
  lemma PongKeepsAlive(r: Router, port: nat, source: nat, sentAt: nat, now: nat, d: nat, later: nat)
    requires Consistent(r) && port in r.ports && source != r.id && d in r.dv
    requires Confirms(r, port, source, sentAt, now, d) && now <= later <= now + 45000
    requires var q := RecvPong(r, port, source, sentAt, now).0;
      d in q.dv ==>
        var n := q.dv[d].nextHop;
        || (n == source && later <= now + 15000)
        || (n in q.neighbors ==> q.neighbors[n].port in q.ports && !Silent(q.ports[q.neighbors[n].port], later))
    ensures var q := RecvPong(r, port, source, sentAt, now).0;
      d in q.dv && d in Refresh(q, later).dv && Refresh(q, later).dv[d] == q.dv[d]
  {
    hide RecvPong, Refresh, Consistent;
    RecvPongConsistent(r, port, source, sentAt, now);
    PongConfirms(r, port, source, sentAt, now, d);
    PongPortsExactly(r, port, source, sentAt, now, port);
    ConfirmedStays(RecvPong(r, port, source, sentAt, now).0, later, d);
  }

  // ---------------------------------------------------------------- what expiry tells

  /** In what order a refresh tells: the destinations lost with their ports first, port by
      port, then those that are too old; in each group by ascending destination. */
  ghost function Rank(r: Router, d: nat, now: nat): nat
    requires d in r.dv
  {
    var n := r.dv[d].nextHop;
    if n in r.neighbors && IsLost(r, n, now) then r.neighbors[n].port else r.numPorts
  }

  ghost predicate Before(r: Router, x: nat, y: nat, now: nat)
    requires x in r.dv && y in r.dv
  {
    Rank(r, x, now) < Rank(r, y, now) || (Rank(r, x, now) == Rank(r, y, now) && x < y)
  }

  ghost predicate InOrder(r: Router, keys: seq<nat>, now: nat) {
    && (forall k <- keys :: k in r.dv)
    && forall i, j :: 0 <= i < j < |keys| ==> Before(r, keys[i], keys[j], now)
  }

  /** What a refresh tells: exactly the entries that do not stay, each once, in this order, at
      the cost of the table then, or as unreachable. */
  ghost predicate TellsRefresh(ads: seq<Entry>, r: Router, now: nat) {
    && (forall e <- ads :: e.dest in r.dv && !Stays(r, e.dest, now))
    && (forall d <- r.dv.Keys :: !Stays(r, d, now) ==> exists e <- ads :: e.dest == d)
    && (forall i, j :: 0 <= i < j < |ads| ==> Before(r, ads[i].dest, ads[j].dest, now))
    && (forall e <- ads :: e.cost == Current(Refresh(r, now).dv, e.dest))
  }

  lemma {:induction false} KeysInOrder(s: set<nat>)
    ensures forall k :: k in KeyOrder(s) <==> k in s
    ensures forall i, j :: 0 <= i < j < |KeyOrder(s)| ==> KeyOrder(s)[i] < KeyOrder(s)[j]
    decreases |s|
  {
    if s == {} {
    } else {
      var k := Least(s);
      var rest := KeyOrder(s - {k});
      KeysInOrder(s - {k});
      assert KeyOrder(s) == [k] + rest;
      forall i, j | 0 <= i < j < |KeyOrder(s)|
        ensures KeyOrder(s)[i] < KeyOrder(s)[j]
      {
        assert KeyOrder(s)[j] == rest[j - 1] && rest[j - 1] in rest;
      }
    }
  }

  /** One group after another. */
  lemma GroupsInOrder(r: Router, x: seq<nat>, y: seq<nat>, now: nat)
    requires InOrder(r, x, now) && InOrder(r, y, now)
    requires forall a <- x, b <- y :: Before(r, a, b, now)
    ensures InOrder(r, x + y, now)
  {
    hide Before;
    forall i, j | 0 <= i < j < |x + y|
      ensures Before(r, (x + y)[i], (x + y)[j], now)
    {
      if i < |x| <= j {
        assert (x + y)[i] in x && (x + y)[j] in y;
      }
    }
  }

  /** The routes lost with port p have the rank p. */
  lemma RankOfLost(r: Router, p: nat, d: nat, now: nat)
    requires Consistent(r) && PortDies(r.ports, p, now) && d in r.dv && r.dv[d].nextHop == r.ports[p].to
    ensures Rank(r, d, now) == p && p < r.numPorts && IsLost(r, r.dv[d].nextHop, now)
  {
    assert PortBacked(r, p);
    assert Silent(r.ports[p], now);
  }

  lemma GroupInOrder(r: Router, keys: set<nat>, p: nat, now: nat)
    requires forall k <- keys :: k in r.dv && Rank(r, k, now) == p
    ensures InOrder(r, KeyOrder(keys), now)
  {
    hide Rank, KeyOrder;
    KeysInOrder(keys);
    var s := KeyOrder(keys);
    forall i, j | 0 <= i < j < |s|
      ensures Before(r, s[i], s[j], now)
    {
      assert s[i] in s && s[j] in s;
    }
  }

  lemma {:induction false} LostInOrder(r: Router, now: nat, n: nat)
    requires Consistent(r) && n <= r.numPorts
    ensures InOrder(r, LostOrder(r, now, n), now)
    ensures forall d ::
              d in LostOrder(r, now, n) <==> d in r.dv && IsLost(r, r.dv[d].nextHop, now) && Rank(r, d, now) < n
  {
    hide Consistent, Rank, KeyOrder, Before, IsLost;
    if n == 0 {
    } else {
      LostInOrder(r, now, n - 1);
      var p := n - 1;
      var group := if PortDies(r.ports, p, now) then Through(r.dv, r.ports[p].to) else {};
      assert LostOrder(r, now, n) == LostOrder(r, now, p) + KeyOrder(group) by {
        NoKeys();
      }
      GroupOfPort(r, p, group, now);
      GroupInOrder(r, group, p, now);
      KeysInOrder(group);
      forall a <- LostOrder(r, now, p), b <- KeyOrder(group)
        ensures Before(r, a, b, now)
      {
        LowerRank(r, a, b, now);
      }
      GroupsInOrder(r, LostOrder(r, now, p), KeyOrder(group), now);
    }
  }

  lemma NoKeys()
    ensures KeyOrder({}) == []
  {
  }

  lemma LowerRank(r: Router, a: nat, b: nat, now: nat)
    requires a in r.dv && b in r.dv && Rank(r, a, now) < Rank(r, b, now)
    ensures Before(r, a, b, now)
  {
  }

  /** Exactly the routes lost with port p have the rank p. */
  lemma GroupOfPort(r: Router, p: nat, group: set<nat>, now: nat)
    requires Consistent(r) && p < r.numPorts
    requires group == if PortDies(r.ports, p, now) then Through(r.dv, r.ports[p].to) else {}
    ensures forall d :: d in group <==> d in r.dv && IsLost(r, r.dv[d].nextHop, now) && Rank(r, d, now) == p
  {
    forall d: nat
      ensures d in group <==> d in r.dv && IsLost(r, r.dv[d].nextHop, now) && Rank(r, d, now) == p
    {
      if d in group {
        RankOfLost(r, p, d, now);
      } else if d in r.dv && IsLost(r, r.dv[d].nextHop, now) {
        assert RouteBacked(r, d);
        LostExactly(r, now, r.dv[d].nextHop);
        assert Rank(r, d, now) == p ==> PortDies(r.ports, p, now);
      }
    }
  }

  /** The keys that a refresh tells. */
  lemma RefreshKeys(r: Router, now: nat)
    requires Consistent(r)
    ensures var keys := LostOrder(r, now, r.numPorts) + KeyOrder(Stale(r.dv, Gone(r, now), now));
      && InOrder(r, keys, now) && forall d :: d in keys <==> d in r.dv && !Stays(r, d, now)
  {
    hide Consistent, Rank, KeyOrder, Before, IsLost, LostOrder, Gone, Late, Elapsed;
    var lost, stale := LostOrder(r, now, r.numPorts), Stale(r.dv, Gone(r, now), now);
    LostInOrder(r, now, r.numPorts);
    KeysInOrder(stale);
    forall d | d in r.dv
      ensures d in stale ==> Rank(r, d, now) == r.numPorts
      ensures d in lost <==> IsLost(r, r.dv[d].nextHop, now)
      ensures d in stale <==> !IsLost(r, r.dv[d].nextHop, now) && Elapsed(r.dv[d].updated, now) > 45000
      ensures d in lost ==> Rank(r, d, now) < r.numPorts
    {
      GoneIsLost(r, now, r.dv[d].nextHop);
      LateIs(r.dv[d].updated, now);
      RankBound(r, d, now);
    }
    GroupInOrder(r, stale, r.numPorts, now);
    forall a <- lost, b <- KeyOrder(stale)
      ensures Before(r, a, b, now)
    {
      LowerRank(r, a, b, now);
    }
    GroupsInOrder(r, lost, KeyOrder(stale), now);
  }

  lemma LateIs(updated: nat, now: nat)
    ensures Late(now, updated, ENTRY_LIMIT) <==> Elapsed(updated, now) > 45000
  {
  }

  lemma RankBound(r: Router, d: nat, now: nat)
    requires Consistent(r) && d in r.dv
    ensures Rank(r, d, now) < r.numPorts <==> IsLost(r, r.dv[d].nextHop, now)
    ensures Rank(r, d, now) <= r.numPorts
  {
    assert RouteBacked(r, d);
    LostExactly(r, now, r.dv[d].nextHop);
  }

  lemma RefreshTellsExactly(r: Router, now: nat)
    requires Consistent(r)
    ensures TellsRefresh(RefreshAds(r, now), r, now)
  {
    var keys := LostOrder(r, now, r.numPorts) + KeyOrder(Stale(r.dv, Gone(r, now), now));
    var neighbors := r.neighbors - Gone(r, now);
    var ads := RefreshAds(r, now);
    assert ads == AdsOf(neighbors, keys);
    RefreshKeys(r, now);
    hide Consistent, RefreshAds, LostOrder, KeyOrder, Gone, Refresh, Stays, Before, U16, IsLost;
    forall i | 0 <= i < |ads|
      ensures ads[i].dest == keys[i] && ads[i].dest in r.dv && !Stays(r, ads[i].dest, now)
      ensures ads[i].cost == Current(Refresh(r, now).dv, ads[i].dest)
    {
      assert keys[i] in keys;
      FallbackIsCurrent(r, now, keys[i]);
    }
    forall d <- r.dv.Keys | !Stays(r, d, now)
      ensures exists e <- ads :: e.dest == d
    {
      var i :| 0 <= i < |keys| && keys[i] == d;
      assert ads[i] in ads && ads[i].dest == d;
    }
  }

  lemma FallbackIsCurrent(r: Router, now: nat, d: nat)
    requires Consistent(r) && d in r.dv && !Stays(r, d, now)
    ensures FallbackAd(r.neighbors - Gone(r, now), d) == Entry(d, Current(Refresh(r, now).dv, d))
  {
    GoneIsLost(r, now, d);
    RefreshExactly(r, now, d);
    hide Refresh, Gone, Stays, IsLost;
  }

  /** So what a refresh does not tell is unchanged, and the last word on everything else is
      its cost in the table then. */
  lemma RefreshTells(r: Router, now: nat, d: nat)
    requires Consistent(r)
    ensures var q, ads := Refresh(r, now), RefreshAds(r, now);
      if LastWord(ads, d) == [] then SameRoute(r.dv, q.dv, d) else LastWord(ads, d) == [Entry(d, Current(q.dv, d))]
  {
    RefreshTellsExactly(r, now);
    RefreshExactly(r, now, d);
    hide Refresh, RefreshAds, Stays, Before, U16, IsLost, Consistent;
    if LastWord(RefreshAds(r, now), d) != [] {
      LastIsOne(RefreshAds(r, now), d);
    }
  }

  // ---------------------------------------------------------------- distance vectors

  /** The first cost that a packet lists for x. */
  predicate IsFirstCost(entries: seq<Entry>, x: nat, c: nat) {
    exists i :: 0 <= i < |entries| && entries[i] == Entry(x, c) && forall j :: 0 <= j < i ==> entries[j].dest != x
  }

  lemma {:induction false} ListedIsFirst(entries: seq<Entry>, x: nat, junk: nat)
    ensures if exists e <- entries :: e.dest == x then IsFirstCost(entries, x, ListedCost(entries, x, junk))
            else ListedCost(entries, x, junk) == junk
  {
    if entries == [] {
    } else if entries[0].dest == x {
      assert entries[0] == Entry(x, entries[0].cost);
    } else {
      var rest := entries[1..];
      ListedIsFirst(rest, x, junk);
      if exists e <- entries :: e.dest == x {
        assert exists e <- rest :: e.dest == x;
        var i :| 0 <= i < |rest| && rest[i] == Entry(x, ListedCost(rest, x, junk))
          && forall j :: 0 <= j < i ==> rest[j].dest != x;
        assert entries[i + 1] == rest[i];
        forall j | 0 <= j < i + 1
          ensures entries[j].dest != x
        {
          if j > 0 {
            assert entries[j] == rest[j - 1];
          }
        }
      }
    }
  }

  /** After a packet its source is a neighbour: an unknown one at the port of the packet, at
      the first cost that it lists for this router. Nothing else changes besides the routes,
      and an entry that is not as before was confirmed by this packet. */
  lemma VectorMeets(r: Router, port: nat, source: nat, entries: seq<Entry>, now: nat, junk: nat, d: nat)
    ensures var q := RecvDV(r, port, source, entries, now, junk).0;
      && q.id == r.id && q.numPorts == r.numPorts && q.ports == r.ports
      && q.neighbors.Keys == r.neighbors.Keys + {source}
      && (d in r.neighbors ==> q.neighbors[d] == r.neighbors[d])
      && (source !in r.neighbors ==>
            && q.neighbors[source].port == port
            && if exists e <- entries :: e.dest == r.id then IsFirstCost(entries, r.id, q.neighbors[source].cost)
               else q.neighbors[source].cost == junk)
      && (d in q.dv ==> (d in r.dv && q.dv[d] == r.dv[d]) || q.dv[d].updated == now)
  {
    hide IsFirstCost;
    ListedIsFirst(entries, r.id, junk);
    RelaxTimes(Introduce(r, port, source, entries, junk), source, entries, now, d);
    hide Relax;
  }

  lemma {:induction false} RelaxTimes(r: Router, source: nat, entries: seq<Entry>, now: nat, d: nat)
    requires source in r.neighbors
    ensures var q := Relax(r, source, entries, now).0;
      d in q.dv ==> (d in r.dv && q.dv[d] == r.dv[d]) || q.dv[d].updated == now
  {
    hide Judge;
    if entries == [] {
    } else {
      RelaxTimes(r, source, entries[..|entries| - 1], now, d);
    }
  }

  /** A packet is taken entry by entry: what it does, and tells, is what its entries do as
      packets of their own. */
  lemma VectorSplits(r: Router, port: nat, source: nat, entries: seq<Entry>, e: Entry, now: nat, junk: nat)
    requires source in r.neighbors
    ensures var (u, ads) := RecvDV(r, port, source, entries, now, junk);
      var (q, more) := RecvDV(u, port, source, [e], now, junk);
      source in u.neighbors && RecvDV(r, port, source, entries + [e], now, junk) == (q, ads + more)
  {
    var (u, ads) := Relax(r, source, entries, now);
    assert (entries + [e])[..|entries|] == entries;
    assert [e][..0] == [] && Relax(u, source, [], now) == (u, []);
    var v := Judge(u, source, e);
    assert v.Keep? && v.echoes > 0 ==> e.dest in u.dv;
    assert [] + Adverts(u, e.dest, v) == Adverts(u, e.dest, v);
    hide Judge, Apply, Adverts;
  }

  /** One from an unknown source does what it does once the source is known. */
  lemma VectorMeetsFirst(r: Router, port: nat, source: nat, entries: seq<Entry>, now: nat, junk: nat)
    ensures var n := RecvDV(r, port, source, entries, now, junk).0.neighbors;
      RecvDV(r, port, source, entries, now, junk) == RecvDV(r.(neighbors := n), port, source, entries, now, junk)
  {
    hide Relax, ListedCost;
  }

  /** The route to the destination of an offer, after the offer: none, or next hop and cost. */
  datatype Route = NoRoute | Via(hop: nat, cost: nat)

  function RouteOf(dv: map<nat, Cell>, d: nat): Route {
    if d in dv then Via(dv[d].nextHop, dv[d].cost) else NoRoute
  }

  /** The route that one entry leaves. An offer from another router than the next hop is taken
      exactly if it is strictly cheaper. What the next hop says replaces the route in use:
      the cheaper of the offer and the direct link, the link if they are equal, the offer if
      it is cheaper than the old route; and without an offer the link or nothing. */
  function Chosen(r: Router, source: nat, e: Entry): Route
    requires source in r.neighbors
  {
    var used := RouteOf(r.dv, e.dest);
    var offer := Via(source, (e.cost + r.neighbors[source].cost) % 0x1_0000_0000);
    var link := if e.dest in r.neighbors then Via(e.dest, r.neighbors[e.dest].cost) else NoRoute;
    var finite := e.cost != 65535;
    if used == NoRoute then if finite && e.dest != r.id then offer else NoRoute
    else if used.hop != source then if finite && offer.cost < used.cost then offer else used
    else if !finite then link
    else if link == NoRoute || offer.cost < link.cost || offer.cost < used.cost then offer
    else link
  }

  /** How often the outcome of one entry is told: once if the route was, or is now, through
      its source or changed from it; twice if an infinite cost met another route; else not at
      all. */
  function Echoes(r: Router, source: nat, e: Entry): nat
    requires source in r.neighbors
  {
    var used := RouteOf(r.dv, e.dest);
    if used.Via? && used.hop == source then 1
    else if Chosen(r, source, e) != used then 1
    else if used.Via? && e.cost == 65535 then 2
    else 0
  }

  /** A packet of one entry from a neighbour: the route to its destination is the chosen one, and
      is told as often as said; all other destinations are left alone. */
  lemma EntryExactly(r: Router, port: nat, source: nat, e: Entry, now: nat, junk: nat, d: nat)
    requires Consistent(r) && source in r.neighbors
    ensures var (q, ads) := RecvDV(r, port, source, [e], now, junk);
      && RouteOf(q.dv, e.dest) == Chosen(r, source, e)
      && (e.dest in q.dv ==>
            q.dv[e.dest].updated == if Echoes(r, source, e) == 1 then now else r.dv[e.dest].updated)
      && (d != e.dest ==> (d in q.dv <==> d in r.dv) && (d in q.dv ==> q.dv[d] == r.dv[d]))
      && ads == seq(Echoes(r, source, e), _ => Entry(e.dest, Current(q.dv, e.dest)))
  {
    assert [e][..0] == [] && Relax(r, source, [], now) == (r, []);
    var v := Judge(r, source, e);
    assert v.Keep? && v.echoes > 0 ==> e.dest in r.dv;
    assert RecvDV(r, port, source, [e], now, junk) == (Apply(r, e.dest, v, now), [] + Adverts(r, e.dest, v));
    assert [] + Adverts(r, e.dest, v) == Adverts(r, e.dest, v);
    hide Consistent, Relax, RecvDV;
  }
}
