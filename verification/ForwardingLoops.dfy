/** Loops of any length: the routers along which data for one destination comes back to
    where it was, and what a change at one router does to them. */
module ForwardingLoops {
  import opened RouterTables
  import opened RouterInvariant
  import opened Words

  /** Router r sends data for d on, to its neighbour h. */
  predicate SendsTo(r: Router, d: nat, h: nat) {
    d != r.id && d in r.forwarding && r.forwarding[d] == h
  }

  /** k hops of the forwarding tables take data for d from x to a. */
  ghost predicate Leads(rs: map<nat, Router>, x: nat, d: nat, a: nat, k: nat)
    decreases k
  {
    if k == 0 then x == a
    else x in rs && d != rs[x].id && d in rs[x].forwarding && Leads(rs, rs[x].forwarding[d], d, a, k - 1)
  }

  /** Data for d reaches a from x. */
  ghost predicate Returns(rs: map<nat, Router>, x: nat, d: nat, a: nat) {
    exists k: nat :: Leads(rs, x, d, a, k)
  }

  /** Data for d that a sends on comes back to a. */
  ghost predicate ComesBack(rs: map<nat, Router>, a: nat, d: nat) {
    exists k: nat :: k > 0 && Leads(rs, a, d, a, k)
  }

  ghost predicate LoopFreeFor(rs: map<nat, Router>, d: nat) {
    forall x: nat :: !ComesBack(rs, x, d)
  }

  // ---------------------------------------------------------------- one router changes

  /** The same routers, up to a. */
  ghost predicate AlikeBut(rs: map<nat, Router>, ss: map<nat, Router>, a: nat) {
    forall x: nat :: x != a ==> (x in rs <==> x in ss) && (x in rs ==> rs[x] == ss[x])
  }

  lemma {:induction false} LeadsOn(rs: map<nat, Router>, x: nat, d: nat, a: nat, y: nat, j: nat, k: nat)
    requires Leads(rs, x, d, a, j) && Leads(rs, a, d, y, k)
    ensures Leads(rs, x, d, y, j + k)
    decreases j
  {
    if j == 0 {
    } else {
      LeadsOn(rs, rs[x].forwarding[d], d, a, y, j - 1, k);
    }
  }

  /** The way to a does not depend on a. */
  lemma {:induction false} WayToIsKept(rs: map<nat, Router>, ss: map<nat, Router>, x: nat, d: nat, a: nat, k: nat)
    requires AlikeBut(rs, ss, a) && Leads(rs, x, d, a, k)
    ensures Returns(ss, x, d, a)
    decreases k
  {
    if x == a {
      assert Leads(ss, x, d, a, 0);
    } else {
      WayToIsKept(rs, ss, rs[x].forwarding[d], d, a, k - 1);
      var j: nat :| Leads(ss, rs[x].forwarding[d], d, a, j);
      assert Leads(ss, x, d, a, j + 1);
    }
  }

  lemma ReturnsAlike(rs: map<nat, Router>, ss: map<nat, Router>, x: nat, d: nat, a: nat)
    requires AlikeBut(rs, ss, a)
    ensures Returns(rs, x, d, a) <==> Returns(ss, x, d, a)
  {
    if Returns(rs, x, d, a) {
      var k: nat :| Leads(rs, x, d, a, k);
      WayToIsKept(rs, ss, x, d, a, k);
    }
    if Returns(ss, x, d, a) {
      var k: nat :| Leads(ss, x, d, a, k);
      WayToIsKept(ss, rs, x, d, a, k);
    }
  }

  /** A way that is new leads through the router that changed. */
  lemma {:induction false} NewWayPasses(rs: map<nat, Router>, ss: map<nat, Router>, x: nat, d: nat, y: nat, k: nat,
                                        a: nat) returns (j: nat)
    requires AlikeBut(rs, ss, a) && Leads(ss, x, d, y, k) && !Leads(rs, x, d, y, k)
    ensures j <= k && Leads(ss, x, d, a, j) && Leads(ss, a, d, y, k - j)
    decreases k
  {
    if x == a {
      j := 0;
    } else {
      var i := NewWayPasses(rs, ss, ss[x].forwarding[d], d, y, k - 1, a);
      j := i + 1;
    }
  }

  /** The data of a comes back exactly if the next hop of a leads to a, as it did before
      a changed. */
  lemma ComesBackExactly(rs: map<nat, Router>, ss: map<nat, Router>, a: nat, d: nat)
    requires AlikeBut(rs, ss, a)
    ensures ComesBack(ss, a, d)
        <==> a in ss && d != ss[a].id && d in ss[a].forwarding && Returns(rs, ss[a].forwarding[d], d, a)
  {
    hide AlikeBut;
    if ComesBack(ss, a, d) {
      var k: nat :| k > 0 && Leads(ss, a, d, a, k);
      assert Leads(ss, ss[a].forwarding[d], d, a, k - 1);
      ReturnsAlike(rs, ss, ss[a].forwarding[d], d, a);
    }
    if a in ss && d != ss[a].id && d in ss[a].forwarding && Returns(rs, ss[a].forwarding[d], d, a) {
      ReturnsAlike(rs, ss, ss[a].forwarding[d], d, a);
      var k: nat :| Leads(ss, ss[a].forwarding[d], d, a, k);
      assert Leads(ss, a, d, a, k + 1);
    }
  }

  /** A change at a makes a loop, wherever in the network, exactly if the data of a
      comes back. */
  lemma ChangeLoopsExactly(rs: map<nat, Router>, ss: map<nat, Router>, a: nat, d: nat)
    requires AlikeBut(rs, ss, a) && LoopFreeFor(rs, d)
    ensures LoopFreeFor(ss, d) <==> !ComesBack(ss, a, d)
  {
    hide AlikeBut, Leads;
    if x: nat :| ComesBack(ss, x, d) {
      var k: nat :| k > 0 && Leads(ss, x, d, x, k);
      assert !ComesBack(rs, x, d);
      var j := NewWayPasses(rs, ss, x, d, x, k, a);
      LeadsOn(ss, a, d, x, a, k - j, j);
    }
  }

  // ---------------------------------------------------------------- handlers

  /** Routers are filed under their own ids. */
  ghost predicate Named(rs: map<nat, Router>) {
    forall x :: x in rs ==> rs[x].id == x
  }

  /** Data that is handed to its destination stays there. */
  lemma ArrivedStays(rs: map<nat, Router>, d: nat, a: nat)
    requires Named(rs) && a != d
    ensures !Returns(rs, d, d, a)
  {
  }

  /** The route of q to d, if any, is the one r had or goes straight to d or to the
      neighbour h. */
  predicate HopIsOldOr(r: Router, q: Router, d: nat, h: nat) {
    d in q.forwarding ==> (d in r.forwarding && q.forwarding[d] == r.forwarding[d]) || q.forwarding[d] == d
                          || q.forwarding[d] == h
  }

  /** What a change at a does to loops if its new routes are old, direct or through h:
      it makes one exactly if a now sends to h what h sends back to a. */
  lemma HopLoopsExactly(rs: map<nat, Router>, q: Router, a: nat, d: nat, h: nat)
    requires Named(rs) && a in rs && q.id == a && LoopFreeFor(rs, d) && HopIsOldOr(rs[a], q, d, h)
    ensures LoopFreeFor(rs[a := q], d) <==> !(SendsTo(q, d, h) && Returns(rs, h, d, a))
  {
    hide Leads, Returns, ComesBack;
    var ss := rs[a := q];
    ChangeLoopsExactly(rs, ss, a, d);
    ComesBackExactly(rs, ss, a, d);
    ComesBackExactly(rs, rs, a, d);
    assert !ComesBack(rs, a, d);
    if a != d {
      ArrivedStays(rs, d, a);
    }
  }

  /** Expiry makes no loops: what is left of the routes is old or direct. */
  lemma RefreshKeepsLoopFree(rs: map<nat, Router>, a: nat, d: nat, now: nat)
    requires Named(rs) && a in rs && Consistent(rs[a]) && LoopFreeFor(rs, d)
    ensures LoopFreeFor(rs[a := Refresh(rs[a], now)], d)
  {
    hide LoopFreeFor, Leads, Returns;
    RefreshHops(rs[a], d, now);
    HopLoopsExactly(rs, Refresh(rs[a], now), a, d, d);
    if a != d {
      ArrivedStays(rs, d, a);
    }
  }

  lemma RefreshHops(r: Router, d: nat, now: nat)
    requires Consistent(r)
    ensures Refresh(r, now).id == r.id && HopIsOldOr(r, Refresh(r, now), d, d)
  {
    assert d in r.dv ==> RouteBacked(r, d);
  }

  /** A pong makes no loops either: it moves routes to their direct link. */
  lemma PongKeepsLoopFree(rs: map<nat, Router>, a: nat, d: nat, port: nat, source: nat, sentAt: nat, now: nat)
    requires Named(rs) && a in rs && Consistent(rs[a]) && port in rs[a].ports && LoopFreeFor(rs, d)
    ensures LoopFreeFor(rs[a := RecvPong(rs[a], port, source, sentAt, now).0], d)
  {
    hide LoopFreeFor, Leads, Returns, RecvPong, Consistent;
    PongHops(rs[a], d, port, source, sentAt, now);
    HopLoopsExactly(rs, RecvPong(rs[a], port, source, sentAt, now).0, a, d, d);
    if a != d {
      ArrivedStays(rs, d, a);
    }
  }

  lemma PongHops(r: Router, d: nat, port: nat, source: nat, sentAt: nat, now: nat)
    requires Consistent(r) && port in r.ports
    ensures var q := RecvPong(r, port, source, sentAt, now).0; q.id == r.id && HopIsOldOr(r, q, d, d)
  {
    assert d in r.dv ==> RouteBacked(r, d);
    hide Listing, U32, U16, PongNews, PongPorts, Consistent;
  }

  /** A vector of any contents makes a loop exactly if it leaves a route through its
      sender that leads back. */
  lemma VectorLoops(rs: map<nat, Router>, a: nat, d: nat, port: nat, source: nat, entries: seq<Entry>, now: nat,
                    junk: nat)
    requires Named(rs) && a in rs && Consistent(rs[a]) && LoopFreeFor(rs, d)
    ensures var q := RecvDV(rs[a], port, source, entries, now, junk).0;
      LoopFreeFor(rs[a := q], d) <==> !(SendsTo(q, d, source) && Returns(rs, source, d, a))
  {
    hide LoopFreeFor, Leads, Returns, Consistent, Relax, SendsTo;
    var m := Introduce(rs[a], port, source, entries, junk);
    IntroduceConsistent(rs[a], port, source, entries, junk);
    RelaxHops(m, source, entries, now, d);
    HopLoopsExactly(rs, RecvDV(rs[a], port, source, entries, now, junk).0, a, d, source);
  }

  lemma {:induction false} RelaxHops(r: Router, source: nat, entries: seq<Entry>, now: nat, d: nat)
    requires Consistent(r) && source in r.neighbors
    ensures HopIsOldOr(r, Relax(r, source, entries, now).0, d, source)
  {
    hide Consistent, Judge;
    if entries == [] {
    } else {
      var n := |entries| - 1;
      RelaxHops(r, source, entries[..n], now, d);
      RelaxConsistent(r, source, entries[..n], now);
      JudgeIsSound(Relax(r, source, entries[..n], now).0, source, entries[n]);
    }
  }
}
