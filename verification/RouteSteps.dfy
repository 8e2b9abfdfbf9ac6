/** Every handler keeps a router's routes good, while no link dies. */
module RouteSteps {
  import opened RouterTables
  import opened RouterInvariant
  import opened Topology
  import opened Routes

  // ---------------------------------------------------------------- distance vectors

  /** What is known when router a takes the entry e from its neighbour s, with rest to
      come after it. */
  ghost predicate Taking(t: Topology, rs: Routers, inbox: Mail, a: nat, s: nat, e: Entry, rest: seq<Entry>) {
    && a in rs && Configured(t) && Compact(t) && Routed(t, rs, inbox, a) && Settled(t, a, rs[a]) && s in rs[a].neighbors
    && (forall b :: Link(t, a, b) ==> b in rs && b in inbox && forall x <- inbox[b] :: x.dest != b)
    && inbox[s] == [e] + rest && Offered(t, rs, s, e)
    && (forall x <- rest :: x.dest == e.dest ==> x.cost <= e.cost)
  }

  /** An entry from s about d is taken exactly if it makes the route cheaper; otherwise the
      route stays as it is, or falls back to an equally cheap or cheaper direct link. */
  ghost predicate JudgedWell(t: Topology, r: Router, s: nat, e: Entry)
    requires s in r.neighbors && Link(t, r.id, s)
  {
    var v, via := Judge(r, s, e), e.cost + Weight(t, r.id, s);
    if e.dest == r.id then v == Keep(0)
    else if e.dest !in r.dv || r.dv[e.dest].cost > via then v == Take(s, via)
    else if r.dv[e.dest].nextHop != s then v == Keep(0)
    else
      && r.dv[e.dest].cost == via
      && (v == Take(s, via)
          || (Link(t, r.id, e.dest) && v == Take(e.dest, Weight(t, r.id, e.dest)) && Weight(t, r.id, e.dest) <= via))
  }

  lemma JudgeCases(t: Topology, r: Router, s: nat, e: Entry)
    requires s in r.neighbors && Link(t, r.id, s) && r.neighbors[s].cost == Weight(t, r.id, s)
    requires e.cost < INFINITY_COST && Weight(t, r.id, s) < INFINITY_COST && r.id !in r.dv
    requires e.dest in r.neighbors ==> Link(t, r.id, e.dest) && r.neighbors[e.dest].cost == Weight(t, r.id, e.dest)
    requires e.dest in r.dv && r.dv[e.dest].nextHop == s ==> r.dv[e.dest].cost >= Weight(t, r.id, s) + e.cost
    ensures JudgedWell(t, r, s, e)
  {
  }

  lemma LinkFits(t: Topology, a: nat, b: nat)
    requires Configured(t) && Compact(t) && Link(t, a, b)
    ensures Weight(t, a, b) < INFINITY_COST
  {
    TracedLink(t, map[b := Start(b, 0)], a, b);
    TracedFits(t, map[b := Start(b, 0)], a, b, Weight(t, a, b));
  }

  lemma TakingJudged(t: Topology, rs: Routers, inbox: Mail, a: nat, s: nat, e: Entry, rest: seq<Entry>)
    requires Taking(t, rs, inbox, a, s, e, rest)
    ensures e.cost < INFINITY_COST && Link(t, a, s) && rs[a].id == a && JudgedWell(t, rs[a], s, e)
  {
    hide Traced, Dist, Knows, Compact, Consistent, Configured, JudgedWell, Link, Weight, Measured;
    SettledId(t, a, rs[a]);
    TracedFits(t, rs, s, e.dest, e.cost);
    assert Near(t, a, rs[a], s);
    LinkFits(t, a, s);
    assert e in inbox[s];
    assert e.dest in rs[a].neighbors ==> Near(t, a, rs[a], e.dest);
    JudgeCases(t, rs[a], s, e);
  }

  lemma SettledId(t: Topology, a: nat, r: Router)
    requires Settled(t, a, r)
    ensures r.id == a && a !in r.dv
  {
  }

  lemma GoodOffer(t: Topology, rs: Routers, inbox: Mail, a: nat, s: nat, e: Entry, rest: seq<Entry>)
    requires Configured(t) && Link(t, a, s) && e.dest != a && Offered(t, rs, s, e)
    requires forall x <- rest :: x.dest == e.dest ==> x.cost <= e.cost
    requires Knows(rs, a, e.dest) ==> Dist(rs, a, e.dest) > e.cost
    ensures Good(t, rs, inbox[s := rest], a, e.dest, s, e.cost + Weight(t, a, s))
  {
    hide Configured, Traced, Knows, Dist, Link, Weight;
    TracedStep(t, rs, a, s, e.dest, e.cost);
  }

  lemma GoodDirect(t: Topology, rs: Routers, inbox: Mail, a: nat, b: nat)
    requires Configured(t) && Link(t, a, b) && b in rs && b in inbox && forall x <- inbox[b] :: x.dest != b
    ensures Good(t, rs, inbox, a, b, b, Weight(t, a, b))
  {
    hide Traced;
    TracedLink(t, rs, a, b);
  }

  lemma GoodLess(t: Topology, rs: Routers, inbox: Mail, a: nat, s: nat, rest: seq<Entry>, d: nat, hop: nat, cost: nat)
    requires s in inbox && (forall x <- rest :: x in inbox[s]) && Good(t, rs, inbox, a, d, hop, cost)
    ensures Good(t, rs, inbox[s := rest], a, d, hop, cost)
  {
  }

  /** The route of the entry's destination afterwards is good, and no dearer than the
      offer plus the link. */
  lemma EntryGood(t: Topology, rs: Routers, inbox: Mail, a: nat, s: nat, e: Entry, rest: seq<Entry>)
    requires Taking(t, rs, inbox, a, s, e, rest)
    requires Judge(rs[a], s, e).Take?
    ensures Link(t, a, s)
    ensures e.dest in rs[a].dv ==> Judge(rs[a], s, e).cost <= rs[a].dv[e.dest].cost
    ensures Judge(rs[a], s, e).cost <= e.cost + Weight(t, a, s)
    ensures Good(t, rs, inbox[s := rest], a, e.dest, Judge(rs[a], s, e).hop, Judge(rs[a], s, e).cost)
  {
    hide Judge, Traced, Compact, Configured, Settled, Improves, Good, Link, Weight, Offered;
    TakingJudged(t, rs, inbox, a, s, e, rest);
    var r, v, via := rs[a], Judge(rs[a], s, e), e.cost + Weight(t, a, s);
    if e.dest !in r.dv || r.dv[e.dest].cost > via {
      GoodOffer(t, rs, inbox, a, s, e, rest);
    } else if v == Take(s, via) {
      assert Good(t, rs, inbox, a, e.dest, s, via);
      GoodLess(t, rs, inbox, a, s, rest, e.dest, s, via);
    } else {
      GoodDirect(t, rs, inbox, a, e.dest);
      GoodLess(t, rs, inbox, a, s, rest, e.dest, e.dest, v.cost);
    }
  }

  // ---------------------------------------------------------------- what is said and heard

  /** Advertisements that state the current costs of router a. */
  ghost predicate Told(t: Topology, rs: Routers, a: nat, ads: seq<Entry>) {
    forall x <- ads :: Offered(t, rs, a, x) && x.cost == Dist(rs, a, x.dest)
  }

  /** Advertisements made while router a went from its table in rs to that in later. */
  ghost predicate Said(t: Topology, rs: Routers, later: Routers, a: nat, ads: seq<Entry>) {
    && Falling(ads)
    && forall x <- ads :: Offered(t, later, a, x) && (Knows(rs, a, x.dest) ==> x.cost <= Dist(rs, a, x.dest))
  }

  /** Router a knows what s offered, at that cost or less. */
  ghost predicate Heard(t: Topology, rs: Routers, a: nat, s: nat, e: Entry) {
    Link(t, a, s) && Knows(rs, a, e.dest) && Dist(rs, a, e.dest) <= Weight(t, a, s) + e.cost
  }

  lemma SaidMore(t: Topology, rs: Routers, mid: Routers, later: Routers, a: nat, ads: seq<Entry>, more: seq<Entry>)
    requires Said(t, rs, mid, a, ads) && Improves(rs, mid) && Improves(mid, later) && Told(t, later, a, more)
    ensures Said(t, rs, later, a, ads + more)
  {
    hide Knows, Dist, Traced;
    forall x <- ads
      ensures Offered(t, later, a, x)
    {
      OfferedKept(t, mid, later, a, x);
    }
    forall i, j | 0 <= i < j < |ads + more| && (ads + more)[i].dest == (ads + more)[j].dest
      ensures (ads + more)[j].cost <= (ads + more)[i].cost
    {
      if i < |ads| <= j {
        assert Offered(t, mid, a, ads[i]);
        assert Offered(t, later, a, more[j - |ads|]);
      } else if |ads| <= i {
        assert Offered(t, later, a, more[i - |ads|]);
      }
    }
  }

  lemma HeardKept(t: Topology, rs: Routers, later: Routers, a: nat, s: nat, e: Entry)
    requires Heard(t, rs, a, s, e) && Improves(rs, later)
    ensures Heard(t, later, a, s, e)
  {
  }

  // ---------------------------------------------------------------- one entry

  lemma EntryImproves(t: Topology, rs: Routers, inbox: Mail, a: nat, s: nat, e: Entry, rest: seq<Entry>, now: nat)
    requires Taking(t, rs, inbox, a, s, e, rest)
    ensures var later := rs[a := Apply(rs[a], e.dest, Judge(rs[a], s, e), now)];
      Improves(rs, later) && Routed(t, later, inbox[s := rest], a) && Heard(t, later, a, s, e)
  {
    hide Judge, Compact, Configured, Improves, Good, Link, Weight, Offered, Settled;
    TakingJudged(t, rs, inbox, a, s, e, rest);
    var r, v := rs[a], Judge(rs[a], s, e);
    var q := Apply(r, e.dest, v, now);
    if v.Take? {
      EntryGood(t, rs, inbox, a, s, e, rest);
    }
    forall d | d in q.dv
      ensures Good(t, rs, inbox[s := rest], a, d, q.dv[d].nextHop, q.dv[d].cost)
    {
      if d in r.dv && q.dv[d] == r.dv[d] {
        GoodLess(t, rs, inbox, a, s, rest, d, q.dv[d].nextHop, q.dv[d].cost);
      }
    }
    Change(t, rs, inbox[s := rest], a, q);
  }

  lemma EntryTold(t: Topology, rs: Routers, inbox: Mail, a: nat, s: nat, e: Entry, rest: seq<Entry>, now: nat)
    requires Taking(t, rs, inbox, a, s, e, rest)
    ensures var v := Judge(rs[a], s, e);
      (v.Keep? ==> v.echoes == 0) && Told(t, rs[a := Apply(rs[a], e.dest, v, now)], a, Adverts(rs[a], e.dest, v))
  {
    hide Judge, Compact, Configured, Improves, Link, Weight, Settled, Traced, Taking;
    TakingCompact(t, rs, inbox, a, s, e, rest);
    TakingJudged(t, rs, inbox, a, s, e, rest);
    var v := Judge(rs[a], s, e);
    var later := rs[a := Apply(rs[a], e.dest, v, now)];
    if v.Take? {
      EntryImproves(t, rs, inbox, a, s, e, rest, now);
      assert Good(t, later, inbox[s := rest], a, e.dest, v.hop, v.cost);
      TracedFits(t, later, a, e.dest, v.cost);
    }
  }

  lemma TakingCompact(t: Topology, rs: Routers, inbox: Mail, a: nat, s: nat, e: Entry, rest: seq<Entry>)
    requires Taking(t, rs, inbox, a, s, e, rest)
    ensures Compact(t) && a in rs && s in rs[a].neighbors
  {
  }

  lemma SettledKept(t: Topology, a: nat, r: Router, q: Router)
    requires Settled(t, a, r) && Consistent(q)
    requires q.neighbors == r.neighbors && q.ports == r.ports && q.id == r.id && q.numPorts == r.numPorts
    requires forall d :: d in r.dv ==> d in q.dv && q.dv[d].cost <= r.dv[d].cost
    ensures Settled(t, a, q)
  {
    hide Consistent, Link, Weight, Open;
    forall b | b in q.neighbors
      ensures Near(t, a, q, b)
    {
      assert Near(t, a, r, b);
    }
    forall b
      ensures Measured(t, a, q, b)
    {
      assert Measured(t, a, r, b);
    }
  }

  lemma EntrySettled(t: Topology, rs: Routers, inbox: Mail, a: nat, s: nat, e: Entry, rest: seq<Entry>, now: nat)
    requires Taking(t, rs, inbox, a, s, e, rest)
    ensures Settled(t, a, Apply(rs[a], e.dest, Judge(rs[a], s, e), now))
  {
    hide Judge, Routed, Consistent, Link, Weight, Improves, Near, Measured, Good, Compact, Configured, Offered,
      JudgedWell;
    TakingJudged(t, rs, inbox, a, s, e, rest);
    ApplyConsistent(rs[a], s, e, now);
    EntryDrops(t, rs, inbox, a, s, e, rest);
    SettledKept(t, a, rs[a], Apply(rs[a], e.dest, Judge(rs[a], s, e), now));
  }

  lemma EntryDrops(t: Topology, rs: Routers, inbox: Mail, a: nat, s: nat, e: Entry, rest: seq<Entry>)
    requires Taking(t, rs, inbox, a, s, e, rest)
    ensures var v := Judge(rs[a], s, e); !v.Drop? && (v.Take? && e.dest in rs[a].dv ==> v.cost <= rs[a].dv[e.dest].cost)
  {
    hide Judge, Compact, Configured, Settled, Improves, Good, Link, Weight, Offered;
    TakingJudged(t, rs, inbox, a, s, e, rest);
    if Judge(rs[a], s, e).Take? {
      EntryGood(t, rs, inbox, a, s, e, rest);
    }
  }

  // ---------------------------------------------------------------- a whole packet

  /** Router a is about to take the entries in queue from s, one after the other. */
  ghost predicate Hearing(t: Topology, rs: Routers, inbox: Mail, a: nat, s: nat, queue: seq<Entry>) {
    && a in rs && Configured(t) && Compact(t) && Routed(t, rs, inbox, a) && Settled(t, a, rs[a]) && s in rs[a].neighbors
    && (forall b :: Link(t, a, b) ==> b in rs && b in inbox && forall x <- inbox[b] :: x.dest != b)
    && s in inbox && inbox[s] == queue && Falling(queue)
    && (forall e <- queue :: Offered(t, rs, s, e))
  }

  lemma HearingTakes(t: Topology, rs: Routers, inbox: Mail, a: nat, s: nat, e: Entry, rest: seq<Entry>)
    requires Hearing(t, rs, inbox, a, s, [e] + rest)
    ensures Taking(t, rs, inbox, a, s, e, rest)
  {
    hide Configured, Compact, Routed, Settled, Link, Offered;
    assert e in [e] + rest;
    forall x <- rest | x.dest == e.dest
      ensures x.cost <= e.cost
    {
      var j :| 0 <= j < |rest| && rest[j] == x;
      assert ([e] + rest)[j + 1] == x && ([e] + rest)[0] == e;
    }
  }

  lemma FallingTail(e: Entry, rest: seq<Entry>)
    requires Falling([e] + rest)
    ensures Falling(rest)
  {
    forall i, j | 0 <= i < j < |rest| && rest[i].dest == rest[j].dest
      ensures rest[j].cost <= rest[i].cost
    {
      assert ([e] + rest)[i + 1] == rest[i] && ([e] + rest)[j + 1] == rest[j];
    }
  }

  lemma OffersKept(t: Topology, rs: Routers, later: Routers, s: nat, queue: seq<Entry>, rest: seq<Entry>)
    requires Improves(rs, later) && (forall e <- queue :: Offered(t, rs, s, e)) && forall x <- rest :: x in queue
    ensures forall x <- rest :: Offered(t, later, s, x)
  {
    hide Improves, Offered;
    forall x <- rest
      ensures Offered(t, later, s, x)
    {
      OfferedKept(t, rs, later, s, x);
    }
  }

  lemma EntryHears(t: Topology, rs: Routers, inbox: Mail, a: nat, s: nat, e: Entry, rest: seq<Entry>, now: nat)
    requires Hearing(t, rs, inbox, a, s, [e] + rest)
    ensures var later := rs[a := Apply(rs[a], e.dest, Judge(rs[a], s, e), now)];
      Hearing(t, later, inbox[s := rest], a, s, rest)
  {
    hide Configured, Compact, Routed, Settled, Link, Offered, Judge, Improves, Falling, Taking;
    HearingTakes(t, rs, inbox, a, s, e, rest);
    EntryImproves(t, rs, inbox, a, s, e, rest, now);
    EntrySettled(t, rs, inbox, a, s, e, rest, now);
    FallingTail(e, rest);
    OffersKept(t, rs, rs[a := Apply(rs[a], e.dest, Judge(rs[a], s, e), now)], s, [e] + rest, rest);
  }

  /** The packet m from s, with rest to come after it. */
  lemma {:induction false} RelaxKeeps(t: Topology, rs: Routers, inbox: Mail, a: nat, s: nat, m: seq<Entry>,
          rest: seq<Entry>, now: nat)
    requires Hearing(t, rs, inbox, a, s, m + rest)
    ensures var (q, ads) := Relax(rs[a], s, m, now);
      var later := rs[a := q];
      && Hearing(t, later, inbox[s := rest], a, s, rest) && Improves(rs, later) && Said(t, rs, later, a, ads)
      && forall e <- m :: Heard(t, later, a, s, e)
    decreases |m|
  {
    hide Judge, Improves, Configured, Compact, Settled, Link, Weight, Routed, Offered, Heard, Apply, Adverts, Knows,
      Dist;
    if m == [] {
      assert m + rest == rest && inbox[s := rest] == inbox && rs[a := rs[a]] == rs;
      ImprovesItself(rs);
    } else {
      var n := |m| - 1;
      var e := m[n];
      assert m[..n] + ([e] + rest) == m + rest;
      RelaxKeeps(t, rs, inbox, a, s, m[..n], [e] + rest, now);
      var (u, ads) := Relax(rs[a], s, m[..n], now);
      var mid, box := rs[a := u], inbox[s := [e] + rest];
      EntryHears(t, mid, box, a, s, e, rest, now);
      HearingTakes(t, mid, box, a, s, e, rest);
      EntryImproves(t, mid, box, a, s, e, rest, now);
      EntryTold(t, mid, box, a, s, e, rest, now);
      var q := Apply(u, e.dest, Judge(u, s, e), now);
      var later := mid[a := q];
      assert later == rs[a := q] && box[s := rest] == inbox[s := rest];
      ImprovesTransitive(rs, mid, later);
      SaidMore(t, rs, mid, later, a, ads, Adverts(u, e.dest, Judge(u, s, e)));
      forall x <- m
        ensures Heard(t, later, a, s, x)
      {
        if x in m[..n] {
          HeardKept(t, mid, later, a, s, x);
        }
      }
    }
  }

  lemma ImprovesItself(rs: Routers)
    ensures Improves(rs, rs)
  {
  }
}
