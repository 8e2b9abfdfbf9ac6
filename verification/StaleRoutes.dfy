/** What the router does not promise: the same vector goes to every neighbour, to the next
    hop of a route too, so a route that just expired can come back through the router that
    depended on it. */
module StaleRoutes {
  import opened ForwardingLoops
  import opened RouterTables
  import opened RouterInvariant
  import opened Words

  ghost predicate OncePerDest(entries: seq<Entry>) {
    forall i, j :: 0 <= i < j < |entries| ==> entries[i].dest != entries[j].dest
  }

  /** The route to d is the same in both. */
  predicate SameRoute(r: Router, q: Router, d: nat) {
    && (d in r.dv <==> d in q.dv) && (d in r.dv ==> r.dv[d] == q.dv[d])
    && (d in r.forwarding <==> d in q.forwarding) && (d in r.forwarding ==> r.forwarding[d] == q.forwarding[d])
  }

  /** Entries about other destinations leave the route to d alone. */
  lemma {:induction false} RelaxElsewhere(r: Router, source: nat, entries: seq<Entry>, now: nat, d: nat)
    requires Consistent(r) && source in r.neighbors && forall e <- entries :: e.dest != d
    ensures SameRoute(r, Relax(r, source, entries, now).0, d)
  {
    hide Judge, Consistent;
    if entries == [] {
    } else {
      var n := |entries| - 1;
      assert entries[n] in entries && forall e <- entries[..n] :: e in entries;
      RelaxElsewhere(r, source, entries[..n], now, d);
      RelaxConsistent(r, source, entries[..n], now);
      JudgeIsSound(Relax(r, source, entries[..n], now).0, source, entries[n]);
    }
  }

  /** What is decided about a destination depends on its route only. */
  lemma JudgeLocal(r: Router, u: Router, source: nat, e: Entry)
    requires source in r.neighbors && u.neighbors == r.neighbors && u.id == r.id && SameRoute(r, u, e.dest)
    ensures Judge(u, source, e) == Judge(r, source, e)
  {
  }

  lemma ApplyLocal(r: Router, u: Router, d: nat, v: Verdict, now: nat)
    requires SameRoute(r, u, d)
    ensures SameRoute(Apply(r, d, v, now), Apply(u, d, v, now), d)
  {
  }

  /** In a packet that lists each destination once, an entry decides about its destination
      as if it were alone. */
  lemma {:induction false} EntryDecides(r: Router, source: nat, entries: seq<Entry>, now: nat, i: nat)
    requires Consistent(r) && source in r.neighbors && OncePerDest(entries) && i < |entries|
    ensures var e := entries[i];
      SameRoute(Apply(r, e.dest, Judge(r, source, e), now), Relax(r, source, entries, now).0, e.dest)
    decreases |entries|
  {
    hide Judge, Consistent, Apply, SameRoute;
    var n, e := |entries| - 1, entries[i];
    RelaxConsistent(r, source, entries[..n], now);
    var u := Relax(r, source, entries[..n], now).0;
    if i == n {
      RelaxElsewhere(r, source, entries[..n], now, e.dest);
      JudgeLocal(r, u, source, e);
      ApplyLocal(r, u, e.dest, Judge(r, source, e), now);
    } else {
      EntryDecides(r, source, entries[..n], now, i);
      assert e == entries[..n][i];
      var v := Judge(u, source, entries[n]);
      JudgeIsSound(u, source, entries[n]);
      ApplyElsewhere(Apply(r, e.dest, Judge(r, source, e), now), u, entries[n].dest, v, now, e.dest);
    }
  }

  lemma ApplyElsewhere(r: Router, u: Router, x: nat, v: Verdict, now: nat, d: nat)
    requires SameRoute(r, u, d) && x != d
    ensures SameRoute(r, Apply(u, x, v, now), d)
  {
  }

  /** A finite offer for an unknown destination is taken. */
  lemma UnknownIsTaken(r: Router, source: nat, entries: seq<Entry>, now: nat, i: nat)
    requires Consistent(r) && source in r.neighbors && OncePerDest(entries) && i < |entries|
    requires entries[i].dest !in r.dv && entries[i].dest != r.id && entries[i].cost != INFINITY_COST
    ensures var q, d := Relax(r, source, entries, now).0, entries[i].dest;
      d in q.dv && d in q.forwarding && q.forwarding[d] == source
      && q.dv[d].cost == U32(entries[i].cost + r.neighbors[source].cost)
  {
    EntryDecides(r, source, entries, now, i);
    hide Consistent, U32, Relax;
  }

  lemma ListingOnce(m: map<nat, nat>)
    ensures OncePerDest(Listing(m))
  {
    forall i, j | 0 <= i < j < |Listing(m)|
      ensures Listing(m)[i].dest != Listing(m)[j].dest
    {
      ListingAscending(m, i, j);
    }
  }

  /** An infinite or missing offer for an unknown destination leaves it unknown. */
  lemma {:induction false} UnknownStays(r: Router, source: nat, entries: seq<Entry>, now: nat, d: nat)
    requires Consistent(r) && source in r.neighbors && d !in r.dv
    requires forall e <- entries :: e.dest == d ==> e.cost == INFINITY_COST
    ensures d !in Relax(r, source, entries, now).0.dv
  {
    hide Consistent;
    if entries == [] {
    } else {
      var n := |entries| - 1;
      assert entries[n] in entries && forall e <- entries[..n] :: e in entries;
      UnknownStays(r, source, entries[..n], now, d);
      RelaxConsistent(r, source, entries[..n], now);
      JudgeIsSound(Relax(r, source, entries[..n], now).0, source, entries[n]);
    }
  }

  // ---------------------------------------------------------------- loops of any length

  /** The router takes the offer: the destination is unknown, or the offer is cheaper, or
      it comes from the next hop and beats the direct link. */
  predicate Adopts(r: Router, source: nat, e: Entry)
    requires source in r.neighbors
  {
    var via := U32(e.cost + r.neighbors[source].cost);
    && e.cost != INFINITY_COST && e.dest != r.id
    && (e.dest in r.dv ==>
          || r.dv[e.dest].cost > via
          || (r.dv[e.dest].nextHop == source && (e.dest in r.neighbors ==> r.neighbors[e.dest].cost > via)))
  }

  /** A packet that lists each destination once makes a loop exactly if it offers what the
      receiver takes and the sender's own route leads to the receiver. */
  lemma VectorLoopsExactly(rs: map<nat, Router>, a: nat, d: nat, port: nat, source: nat, entries: seq<Entry>,
                           now: nat, junk: nat)
    requires Named(rs) && a in rs && Consistent(rs[a]) && LoopFreeFor(rs, d) && OncePerDest(entries)
    ensures var m := Introduce(rs[a], port, source, entries, junk);
      LoopFreeFor(rs[a := RecvDV(rs[a], port, source, entries, now, junk).0], d)
      <==> !((exists e <- entries :: e.dest == d && Adopts(m, source, e)) && Returns(rs, source, d, a))
  {
    hide LoopFreeFor, Consistent, Relax, Returns, Named;
    VectorLoops(rs, a, d, port, source, entries, now, junk);
    if Returns(rs, source, d, a) {
      NotYetThere(rs, a, d, source);
      IntroduceConsistent(rs[a], port, source, entries, junk);
      SendsExactly(Introduce(rs[a], port, source, entries, junk), source, entries, now, d);
    }
  }

  /** Where there is no loop, the data of a does not go to a neighbour that leads back,
      nor is that neighbour the destination. */
  lemma NotYetThere(rs: map<nat, Router>, a: nat, d: nat, h: nat)
    requires Named(rs) && a in rs && LoopFreeFor(rs, d) && Returns(rs, h, d, a)
    ensures rs[a].id == a && !SendsTo(rs[a], d, h) && (a != d ==> h != d)
  {
    hide Leads, Returns, ComesBack;
    ComesBackExactly(rs, rs, a, d);
    assert !ComesBack(rs, a, d);
    if a != d {
      ArrivedStays(rs, d, a);
    }
  }

  /** After a packet the route to d leads through its sender exactly if the router took
      an offer, where it did not lead there before. */
  lemma SendsExactly(r: Router, source: nat, entries: seq<Entry>, now: nat, d: nat)
    requires Consistent(r) && source in r.neighbors && OncePerDest(entries)
    requires !SendsTo(r, d, source) && (r.id != d ==> source != d)
    ensures SendsTo(Relax(r, source, entries, now).0, d, source)
        <==> exists e <- entries :: e.dest == d && Adopts(r, source, e)
  {
    hide Relax, Judge, Adopts, Consistent;
    if i :| 0 <= i < |entries| && entries[i].dest == d {
      EntryDecides(r, source, entries, now, i);
      AdoptsExactly(r, source, entries[i], now);
      assert entries[i] in entries && forall e <- entries :: e.dest == d ==> e == entries[i];
    } else {
      RelaxElsewhere(r, source, entries, now, d);
    }
  }

  lemma AdoptsExactly(r: Router, source: nat, e: Entry, now: nat)
    requires Consistent(r) && source in r.neighbors
    requires !SendsTo(r, e.dest, source) && (r.id != e.dest ==> source != e.dest)
    ensures SendsTo(Apply(r, e.dest, Judge(r, source, e), now), e.dest, source) <==> Adopts(r, source, e)
  {
    assert e.dest in r.dv ==> RouteBacked(r, e.dest);
    hide U32;
  }

  // ---------------------------------------------------------------- after an expiry

  /** A route that expired comes back with the next vector of a neighbour exactly if that
      lists a finite cost, and then it leads to that neighbour. */
  lemma LostComesBack(r: Router, port: nat, source: nat, dv: map<nat, Cell>, now: nat, junk: nat, d: nat)
    requires Consistent(r) && source in r.neighbors && d !in r.dv && d != r.id
    ensures var q := RecvDV(r, port, source, Listing(Costs(dv)), now, junk).0;
      && (d in q.forwarding <==> d in dv && U16(dv[d].cost) != INFINITY_COST)
      && (d in q.forwarding ==> q.forwarding[d] == source)
  {
    hide Consistent, Relax, U32, U16;
    var entries := Listing(Costs(dv));
    RecvDVConsistent(r, port, source, entries, now, junk);
    if d in dv && U16(dv[d].cost) != INFINITY_COST {
      ListingComplete(Costs(dv), d);
      var i :| 0 <= i < |entries| && entries[i] == Entry(d, U16(dv[d].cost));
      ListingOnce(Costs(dv));
      UnknownIsTaken(r, source, entries, now, i);
    } else {
      forall e <- entries | e.dest == d
        ensures e.cost == INFINITY_COST
      {
        var i :| 0 <= i < |entries| && entries[i] == e;
        ListingSound(Costs(dv), i);
      }
      UnknownStays(r, source, entries, now, d);
      KeysAgree(RecvDV(r, port, source, entries, now, junk).0);
    }
  }

  lemma KeysAgree(r: Router)
    requires Consistent(r)
    ensures r.forwarding.Keys == r.dv.Keys
  {
  }

  lemma RefreshKeepsId(a: Router, expiry: nat)
    ensures Refresh(a, expiry).id == a.id
  {
  }

  /** Router a has just lost its route to d: the next vector of its neighbour b makes data
      for d go in a circle through a, of any length, exactly if b offers a finite cost and
      the route of b leads, over whatever routers, to a. */
  lemma LoopsExactly(rs: map<nat, Router>, a: nat, b: nat, d: nat, port: nat, expiry: nat, now: nat, junk: nat)
    requires a in rs && b in rs && a != b && rs[a].id == a && rs[b].id == b && Consistent(rs[a]) && d != a
    requires b in Refresh(rs[a], expiry).neighbors && d !in Refresh(rs[a], expiry).dv
    ensures var q := RecvDV(Refresh(rs[a], expiry), port, b, Listing(Costs(rs[b].dv)), now, junk).0;
      ComesBack(rs[a := q], a, d)
      <==> d in rs[b].dv && U16(rs[b].dv[d].cost) != INFINITY_COST && Returns(rs, b, d, a)
  {
    RefreshConsistent(rs[a], expiry);
    RefreshKeepsId(rs[a], expiry);
    hide Consistent, Refresh, U16, Relax, ComesBack, Returns, Introduce;
    LostComesBack(Refresh(rs[a], expiry), port, b, rs[b].dv, now, junk, d);
    var q := RecvDV(Refresh(rs[a], expiry), port, b, Listing(Costs(rs[b].dv)), now, junk).0;
    VectorKeepsId(Refresh(rs[a], expiry), port, b, Listing(Costs(rs[b].dv)), now, junk);
    ComesBackExactly(rs, rs[a := q], a, d);
  }

  lemma VectorKeepsId(r: Router, port: nat, source: nat, entries: seq<Entry>, now: nat, junk: nat)
    ensures RecvDV(r, port, source, entries, now, junk).0.id == r.id
  {
  }

  /** Two routers send data for d to each other. */
  ghost predicate Loops(a: Router, b: Router, d: nat) {
    d in a.forwarding && a.forwarding[d] == b.id && d in b.forwarding && b.forwarding[d] == a.id
  }

  /** b's next vector offers a the route that b has through a. */
  ghost predicate OffersBack(a: Router, b: Router, d: nat) {
    d in b.dv && b.dv[d].nextHop == a.id && U16(b.dv[d].cost) != INFINITY_COST
  }

  /** The shortest circle: the two forward to each other exactly if b still reaches d
      through a, at a cost that goes out as a finite one. */
  lemma PairLoopsExactly(a: Router, b: Router, d: nat, port: nat, expiry: nat, now: nat, junk: nat)
    requires Consistent(a) && Consistent(b) && d != a.id
    requires b.id in Refresh(a, expiry).neighbors && d !in Refresh(a, expiry).dv
    ensures Loops(RecvDV(Refresh(a, expiry), port, b.id, Listing(Costs(b.dv)), now, junk).0, b, d)
        <==> OffersBack(a, b, d)
  {
    RefreshConsistent(a, expiry);
    RefreshKeepsId(a, expiry);
    assert d in b.dv ==> RouteBacked(b, d);
    assert d in b.forwarding ==> d in b.dv;
    hide Consistent, Refresh, U16, Relax, Introduce;
    LostComesBack(Refresh(a, expiry), port, b.id, b.dv, now, junk, d);
    VectorKeepsId(Refresh(a, expiry), port, b.id, Listing(Costs(b.dv)), now, junk);
  }
}
