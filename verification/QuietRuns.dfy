/** Updates die down: while no link dies, every run can go on without loss until all costs
    are exact and nothing is on its way. */
module QuietRuns {
  import opened RouterTables
  import opened RouterInvariant
  import opened Topology
  import opened Fifo
  import opened Routes
  import opened RouteSteps
  import opened LoopFree
  import opened Convergence
  import opened RoundRuns
  import opened Quiescence

  // ---------------------------------------------------------------- one router

  /** Router a has heard every route of its neighbours. */
  ghost predicate HeardAll(t: Topology, rs: Routers, a: nat) {
    forall s, e: nat :: Link(t, a, s) && s in rs && e in rs[s].dv ==> Heard(t, rs, a, s, Entry(e, rs[s].dv[e].cost))
  }

  ghost predicate SameCosts(dv: map<nat, Cell>, dv': map<nat, Cell>) {
    dv.Keys == dv'.Keys && forall d :: d in dv ==> dv'[d].cost == dv[d].cost
  }

  /** A destination that a reaches through s is further from a than from s. */
  ghost predicate Further(t: Topology, rs: Routers, a: nat, s: nat, d: nat) {
    Link(t, a, s) && Knows(rs, s, d) && Knows(rs, a, d) && Dist(rs, a, d) >= Weight(t, a, s) + Dist(rs, s, d)
  }

  /** What s offers is known to a already, at no more than the offer plus the link. */
  lemma OfferHeard(t: Topology, rs: Routers, a: nat, s: nat, e: Entry)
    requires HeardAll(t, rs, a) && Offered(t, rs, s, e) && Link(t, a, s)
    ensures e.dest != s && Knows(rs, s, e.dest) && Dist(rs, s, e.dest) <= e.cost
    ensures Knows(rs, a, e.dest) && Dist(rs, a, e.dest) <= Weight(t, a, s) + Dist(rs, s, e.dest)
  {
    hide Traced;
    assert Heard(t, rs, a, s, Entry(e.dest, rs[s].dv[e.dest].cost));
  }

  lemma DirectCost(t: Topology, a: nat, r: Router, s: nat, e: Entry)
    requires Settled(t, a, r) && s in r.neighbors && Judge(r, s, e).Take?
    ensures var v := Judge(r, s, e);
      || v.hop == s
      || (v.hop == e.dest && Link(t, a, e.dest) && e.dest in r.dv && r.dv[e.dest].cost <= Weight(t, a, e.dest))
  {
    hide Judge, Link, Weight, Open, Measured;
    SettledConsistent(t, a, r);
    JudgeIsSound(r, s, e);
    hide Consistent;
    if e.dest in r.neighbors {
      assert Near(t, a, r, e.dest);
    }
  }

  lemma SettledConsistent(t: Topology, a: nat, r: Router)
    requires Settled(t, a, r)
    ensures Consistent(r)
  {
  }

  /** An entry changes no cost any more, and is passed on only if it came from the next hop. */
  lemma CalmEntry(t: Topology, rs: Routers, inbox: Mail, a: nat, s: nat, e: Entry, rest: seq<Entry>, now: nat)
    requires Taking(t, rs, inbox, a, s, e, rest) && HeardAll(t, rs, a)
    ensures var v := Judge(rs[a], s, e);
      && SameCosts(rs[a].dv, Apply(rs[a], e.dest, v, now).dv) && (v.Keep? ==> v.echoes == 0) && !v.Drop?
      && (v.Take? ==> Further(t, rs, a, s, e.dest))
  {
    hide Judge, HeardAll, Taking, Settled, Link, Weight, Offered;
    TakingSettled(t, rs, inbox, a, s, e, rest);
    TakingJudged(t, rs, inbox, a, s, e, rest);
    OfferHeard(t, rs, a, s, e);
    if Judge(rs[a], s, e).Take? {
      DirectCost(t, a, rs[a], s, e);
    }
  }

  lemma TakingSettled(t: Topology, rs: Routers, inbox: Mail, a: nat, s: nat, e: Entry, rest: seq<Entry>)
    requires Taking(t, rs, inbox, a, s, e, rest)
    ensures a in rs && Settled(t, a, rs[a]) && s in rs[a].neighbors && Offered(t, rs, s, e)
  {
  }

  lemma SameDist(rs: Routers, a: nat, q: Router, x: nat, d: nat)
    requires a in rs && SameCosts(rs[a].dv, q.dv)
    ensures Knows(rs[a := q], x, d) <==> Knows(rs, x, d)
    ensures Knows(rs, x, d) ==> Dist(rs[a := q], x, d) == Dist(rs, x, d)
  {
  }

  lemma HeardAllKept(t: Topology, rs: Routers, a: nat, q: Router, x: nat)
    requires a in rs && SameCosts(rs[a].dv, q.dv) && HeardAll(t, rs, x)
    ensures HeardAll(t, rs[a := q], x)
  {
    hide Knows, Dist, Link, Weight;
    var later := rs[a := q];
    forall s, e: nat | Link(t, x, s) && s in later && e in later[s].dv
      ensures Heard(t, later, x, s, Entry(e, later[s].dv[e].cost))
    {
      SameDist(rs, a, q, x, e);
      assert e in rs[s].dv && rs[s].dv[e].cost == later[s].dv[e].cost;
      assert Heard(t, rs, x, s, Entry(e, rs[s].dv[e].cost));
    }
  }

  lemma FurtherBack(t: Topology, rs: Routers, a: nat, q: Router, s: nat, d: nat)
    requires a in rs && SameCosts(rs[a].dv, q.dv) && Further(t, rs[a := q], a, s, d)
    ensures Further(t, rs, a, s, d)
  {
    hide Knows, Dist, Link, Weight;
    SameDist(rs, a, q, a, d);
    SameDist(rs, a, q, s, d);
  }

  ghost predicate Mentions(m: seq<Entry>, d: nat) {
    exists e <- m :: e.dest == d
  }

  /** What a passes on from a packet of s. */
  ghost predicate PassedOn(t: Topology, rs: Routers, a: nat, s: nat, m: seq<Entry>, ads: seq<Entry>) {
    forall x <- ads :: Mentions(m, x.dest) && Further(t, rs, a, s, x.dest)
  }

  lemma PassedOnMore(t: Topology, rs: Routers, a: nat, s: nat, m: seq<Entry>, ads: seq<Entry>, more: seq<Entry>)
    requires m != [] && PassedOn(t, rs, a, s, m[..|m| - 1], ads)
    requires forall x <- more :: x.dest == m[|m| - 1].dest && Further(t, rs, a, s, x.dest)
    ensures PassedOn(t, rs, a, s, m, ads + more)
  {
    hide Further;
    var n := |m| - 1;
    assert m[n] in m && forall x <- m[..n] :: x in m;
    forall x <- ads + more
      ensures Mentions(m, x.dest) && Further(t, rs, a, s, x.dest)
    {
      if x in ads {
        assert Mentions(m[..n], x.dest);
      }
    }
  }

  /** A whole packet. */
  lemma {:induction false} CalmPacket(t: Topology, rs: Routers, inbox: Mail, a: nat, s: nat, m: seq<Entry>,
                                      rest: seq<Entry>, now: nat)
    requires Hearing(t, rs, inbox, a, s, m + rest) && HeardAll(t, rs, a)
    ensures var (q, ads) := Relax(rs[a], s, m, now);
      SameCosts(rs[a].dv, q.dv) && PassedOn(t, rs, a, s, m, ads)
    decreases |m|
  {
    hide Judge, Hearing, HeardAll, Further, Apply, Improves, Said, Heard, Taking;
    HearingHas(t, rs, inbox, a, s, m + rest);
    if m == [] {
    } else {
      var n := |m| - 1;
      var e := m[n];
      assert m[..n] + ([e] + rest) == m + rest;
      CalmPacket(t, rs, inbox, a, s, m[..n], [e] + rest, now);
      RelaxKeeps(t, rs, inbox, a, s, m[..n], [e] + rest, now);
      var (u, ads) := Relax(rs[a], s, m[..n], now);
      var mid, box := rs[a := u], inbox[s := [e] + rest];
      HearingTakes(t, mid, box, a, s, e, rest);
      HeardAllKept(t, rs, a, u, a);
      CalmEntry(t, mid, box, a, s, e, rest, now);
      var v := Judge(u, s, e);
      if v.Take? {
        FurtherBack(t, rs, a, u, s, e.dest);
      }
      PassedOnMore(t, rs, a, s, m, ads, Adverts(u, e.dest, v));
    }
  }

  lemma HearingHas(t: Topology, rs: Routers, inbox: Mail, a: nat, s: nat, queue: seq<Entry>)
    requires Hearing(t, rs, inbox, a, s, queue)
    ensures a in rs && s in rs[a].neighbors
  {
  }

  // ---------------------------------------------------------------- the network

  /** Every destination that a packet of s speaks of is at least p away from s. */
  ghost predicate MsgLevel(rs: Routers, s: nat, m: seq<Entry>, p: nat) {
    forall e <- m :: Knows(rs, s, e.dest) && Dist(rs, s, e.dest) >= p
  }

  /** Packets on the way from s to x: those numbered below the cut are at level p, later
      ones at level p + 1, and not empty. */
  ghost predicate LinkLevel(t: Topology, n: Net, cut: map<(nat, nat), nat>, p: nat, s: nat, x: nat) {
    && (s, x) in cut && (s, x) in n.log && (s, x) in n.taken
    && n.taken[(s, x)] <= |n.log[(s, x)]| && cut[(s, x)] <= |n.log[(s, x)]|
    && forall i :: n.taken[(s, x)] <= i < |n.log[(s, x)]| ==>
         && MsgLevel(n.routers, s, n.log[(s, x)][i], if i < cut[(s, x)] then p else p + 1)
         && (i >= cut[(s, x)] ==> n.log[(s, x)][i] != [])
  }

  /** Everything is heard, and what is on its way is old news. */
  ghost predicate Calm(t: Topology, n: Net, cut: map<(nat, nat), nat>, p: nat) {
    && Inv(t, n) && Acquainted(t, n) && (forall a :: a in n.routers ==> HeardAll(t, n.routers, a))
    && forall s, x :: Link(t, s, x) ==> LinkLevel(t, n, cut, p, s, x)
  }

  lemma MsgLevelKept(rs: Routers, a: nat, q: Router, s: nat, m: seq<Entry>, p: nat)
    requires a in rs && SameCosts(rs[a].dv, q.dv) && MsgLevel(rs, s, m, p)
    ensures MsgLevel(rs[a := q], s, m, p)
  {
    hide Knows, Dist;
    forall e <- m
      ensures Knows(rs[a := q], s, e.dest) && Dist(rs[a := q], s, e.dest) >= p
    {
      SameDist(rs, a, q, s, e.dest);
    }
  }

  /** What is passed on from a packet at level p is at level p + 1. */
  lemma PassedOnLevel(t: Topology, rs: Routers, a: nat, s: nat, m: seq<Entry>, ads: seq<Entry>, p: nat)
    requires Configured(t) && PassedOn(t, rs, a, s, m, ads) && MsgLevel(rs, s, m, p)
    ensures MsgLevel(rs, a, ads, p + 1)
  {
    hide Knows, Dist;
    forall x <- ads
      ensures Knows(rs, a, x.dest) && Dist(rs, a, x.dest) >= p + 1
    {
      assert Mentions(m, x.dest);
      LinkWeight(t, a, s);
    }
  }

  /** One delivery, seen from one link. */
  lemma LinkLevelKept(t: Topology, n: Net, s: nat, a: nat, q: Router, ads: seq<Entry>,
                      cut: map<(nat, nat), nat>, p: nat, y: nat, x: nat)
    requires Waiting(n, s, a) && a in n.routers && SameCosts(n.routers[a].dv, q.dv) && LinkLevel(t, n, cut, p, y, x)
    requires MsgLevel(n.routers, a, ads, p + 1)
    ensures LinkLevel(t, Post(t, Pop(n, s, a), a, q, Packets(ads)), cut, p, y, x)
  {
    hide MsgLevel, SameCosts, Open;
    var z := Post(t, Pop(n, s, a), a, q, Packets(ads));
    var l := (y, x);
    forall i | z.taken[l] <= i < |z.log[l]|
      ensures MsgLevel(z.routers, y, z.log[l][i], if i < cut[l] then p else p + 1)
      ensures i >= cut[l] ==> z.log[l][i] != []
    {
      if i < |n.log[l]| {
        MsgLevelKept(n.routers, a, q, y, n.log[l][i], if i < cut[l] then p else p + 1);
      } else {
        MsgLevelKept(n.routers, a, q, a, ads, p + 1);
      }
    }
  }

  /** What a delivery does to the receiver when everything is heard: its costs stay, and
      what it passes on is one level up. */
  ghost predicate TakesCalmly(t: Topology, n: Net, s: nat, a: nat, p: nat)
    requires Enabled(t, n, Deliver(s, a, 0))
  {
    var (q, ads) := RecvDV(n.routers[a], t.port[(a, s)], s, Head(n, s, a), 0, 0);
    SameCosts(n.routers[a].dv, q.dv) && MsgLevel(n.routers, a, ads, p + 1)
  }

  lemma CalmReceiver(t: Topology, n: Net, s: nat, a: nat, cut: map<(nat, nat), nat>, p: nat)
    requires Enabled(t, n, Deliver(s, a, 0)) && Link(t, s, a)
    requires Configured(t) && Compact(t) && Calm(t, n, cut, p)
    ensures TakesCalmly(t, n, s, a, p)
  {
    hide Configured, Compact, Inv, Acquainted, Hearing, HeardAll, SameCosts, PassedOn, Relax, ListedCost, Pending,
      LinkLevel, MsgLevel;
    InvWired(t, n);
    PopInbox(t, n, s, a, a);
    DeliverHears(t, n, s, a, 0);
    CalmPacket(t, n.routers, Inbox(t, n, a), a, s, Head(n, s, a), Pending(t, Pop(n, s, a), s, a), 0);
    HeadLevel(t, n, s, a, cut, p);
    var (q, ads) := RecvDV(n.routers[a], t.port[(a, s)], s, Head(n, s, a), 0, 0);
    PassedOnLevel(t, n.routers, a, s, Head(n, s, a), ads, p);
  }

  lemma HeadLevel(t: Topology, n: Net, s: nat, a: nat, cut: map<(nat, nat), nat>, p: nat)
    requires LinkLevel(t, n, cut, p, s, a) && Waiting(n, s, a)
    ensures MsgLevel(n.routers, s, Head(n, s, a), p)
  {
    hide Knows, Dist;
    var k := if n.taken[(s, a)] < cut[(s, a)] then p else p + 1;
    assert MsgLevel(n.routers, s, Head(n, s, a), k);
  }

  /** The calm lasts through a delivery. */
  lemma CalmDeliver(t: Topology, n: Net, s: nat, a: nat, cut: map<(nat, nat), nat>, p: nat)
    requires Configured(t) && Compact(t) && Calm(t, n, cut, p) && Link(t, s, a) && Waiting(n, s, a)
    ensures Enabled(t, n, Deliver(s, a, 0)) && Calm(t, Next(t, n, Deliver(s, a, 0)), cut, p)
  {
    hide Configured, Compact, Inv, Acquainted, HeardAll, RecvDV, LinkLevel, Post, MsgLevel, SameCosts, Packets, Grows;
    CanDeliver(t, n, s, a);
    var e := Deliver(s, a, 0);
    var (q, ads) := RecvDV(n.routers[a], t.port[(a, s)], s, Head(n, s, a), 0, 0);
    CalmReceiver(t, n, s, a, cut, p);
    NextKeeps(t, n, e);
    NextGrows(t, n, e);
    AcquaintedLater(t, n, Next(t, n, e));
    PostRouters(t, Pop(n, s, a), a, q, Packets(ads));
    forall x | x in n.routers
      ensures HeardAll(t, n.routers[a := q], x)
    {
      HeardAllKept(t, n.routers, a, q, x);
    }
    forall y: nat, x: nat | Link(t, y, x)
      ensures LinkLevel(t, Next(t, n, e), cut, p, y, x)
    {
      LinkLevelKept(t, n, s, a, q, ads, cut, p, y, x);
    }
  }

  // ---------------------------------------------------------------- flushing

  /** Everything below the cut was delivered. */
  ghost predicate Flushed(n: Net, cut: map<(nat, nat), nat>, l: (nat, nat)) {
    l in cut && l in n.taken && n.taken[l] >= cut[l]
  }

  lemma FlushedKept(t: Topology, n: Net, s: nat, a: nat, cut: map<(nat, nat), nat>, l: (nat, nat))
    requires Enabled(t, n, Deliver(s, a, 0)) && Flushed(n, cut, l)
    ensures Flushed(Next(t, n, Deliver(s, a, 0)), cut, l)
  {
    hide RecvDV;
  }

  /** How many deliveries a link is away from its cut. */
  function Left(n: Net, cut: map<(nat, nat), nat>, l: (nat, nat)): nat {
    if l in cut && l in n.taken && n.taken[l] < cut[l] then cut[l] - n.taken[l] else 0
  }

  /** One link. */
  lemma {:induction false} FlushLink(t: Topology, states: seq<Net>, events: seq<Event>, s: nat, r: nat,
                                     cut: map<(nat, nat), nat>, p: nat, done: set<(nat, nat)>)
    returns (more: seq<Net>, rest: seq<Event>)
    requires Configured(t) && Compact(t) && IsRun(t, states, events) && Calm(t, states[|events|], cut, p)
    requires Link(t, s, r)
    requires forall l <- done :: Flushed(states[|events|], cut, l)
    ensures Prolongs(t, states, events, more, rest) && Calm(t, more[|rest|], cut, p)
    ensures forall l <- done + {(s, r)} :: Flushed(more[|rest|], cut, l)
    decreases Left(states[|events|], cut, (s, r))
  {
    hide Run, Configured, Compact, Calm, Next, Enabled, Link, Flushed;
    var n := states[|events|];
    CalmHas(t, n, cut, p, s, r);
    if n.taken[(s, r)] >= cut[(s, r)] {
      more, rest := states, events;
      assert Flushed(n, cut, (s, r)) by {
        FlushedIs(n, cut, (s, r));
      }
    } else {
      var e := Deliver(s, r, 0);
      WaitingBelow(t, n, cut, p, s, r);
      CalmDeliver(t, n, s, r, cut, p);
      DeliverTakes(t, n, s, r);
      RunExtends(t, states, events, e);
      var s1, e1 := states + [Next(t, n, e)], events + [e];
      forall l <- done
        ensures Flushed(s1[|e1|], cut, l)
      {
        FlushedKept(t, n, s, r, cut, l);
      }
      more, rest := FlushLink(t, s1, e1, s, r, cut, p, done);
      ProlongsOn(t, states, events, s1, e1, more, rest);
    }
  }

  lemma FlushedIs(n: Net, cut: map<(nat, nat), nat>, l: (nat, nat))
    requires l in cut && l in n.taken && n.taken[l] >= cut[l]
    ensures Flushed(n, cut, l)
  {
  }

  lemma WaitingBelow(t: Topology, n: Net, cut: map<(nat, nat), nat>, p: nat, s: nat, r: nat)
    requires Calm(t, n, cut, p) && Link(t, s, r) && (s, r) in n.taken && (s, r) in cut && n.taken[(s, r)] < cut[(s, r)]
    ensures Waiting(n, s, r)
  {
    hide Inv, Acquainted, HeardAll, MsgLevel;
    assert LinkLevel(t, n, cut, p, s, r);
  }

  lemma DeliverTakes(t: Topology, n: Net, s: nat, r: nat)
    requires Enabled(t, n, Deliver(s, r, 0))
    ensures var z := Next(t, n, Deliver(s, r, 0)); (s, r) in z.taken && z.taken[(s, r)] == n.taken[(s, r)] + 1
  {
    hide RecvDV;
  }

  /** All links. */
  lemma {:induction false} FlushLinks(t: Topology, states: seq<Net>, events: seq<Event>, todo: set<(nat, nat)>,
                                      cut: map<(nat, nat), nat>, p: nat, done: set<(nat, nat)>)
    returns (more: seq<Net>, rest: seq<Event>)
    requires Configured(t) && Compact(t) && IsRun(t, states, events) && Calm(t, states[|events|], cut, p)
    requires todo <= t.weight.Keys && forall l <- done :: Flushed(states[|events|], cut, l)
    ensures Prolongs(t, states, events, more, rest) && Calm(t, more[|rest|], cut, p)
    ensures forall l <- done + todo :: Flushed(more[|rest|], cut, l)
    decreases |todo|
  {
    hide Run, Configured, Compact, Calm, Flushed;
    if todo == {} {
      more, rest := states, events;
    } else {
      var l :| l in todo;
      CalmHas(t, states[|events|], cut, p, l.0, l.1);
      var s1, e1 := FlushLink(t, states, events, l.0, l.1, cut, p, done);
      more, rest := FlushLinks(t, s1, e1, todo - {l}, cut, p, done + {l});
      ProlongsOn(t, states, events, s1, e1, more, rest);
    }
  }

  lemma CalmHas(t: Topology, n: Net, cut: map<(nat, nat), nat>, p: nat, s: nat, r: nat)
    requires Calm(t, n, cut, p) && Link(t, s, r)
    ensures (s, r) in cut && (s, r) in n.taken && (s, r) in n.log && n.taken[(s, r)] <= |n.log[(s, r)]|
  {
    hide Inv, Acquainted, HeardAll, MsgLevel;
    assert LinkLevel(t, n, cut, p, s, r);
  }

  function Lengths(n: Net): map<(nat, nat), nat> {
    map l | l in n.log :: |n.log[l]|
  }

  /** After a flush what is on its way is one level up. */
  lemma NextLevel(t: Topology, n: Net, cut: map<(nat, nat), nat>, p: nat)
    requires Calm(t, n, cut, p) && forall l :: l in t.weight ==> Flushed(n, cut, l)
    ensures Calm(t, n, Lengths(n), p + 1)
  {
    hide Inv, Acquainted, HeardAll, MsgLevel;
    forall s: nat, x: nat | Link(t, s, x)
      ensures LinkLevel(t, n, Lengths(n), p + 1, s, x)
    {
      assert LinkLevel(t, n, cut, p, s, x) && Flushed(n, cut, (s, x));
    }
  }

  /** No cost is infinite, so at that level nothing is on its way. */
  lemma TopLevelIsQuiet(t: Topology, n: Net, cut: map<(nat, nat), nat>, p: nat)
    requires Compact(t) && Calm(t, n, cut, p) && (forall l :: l in t.weight ==> Flushed(n, cut, l))
    requires p >= INFINITY_COST
    ensures Quiet(t, n)
  {
    hide Compact, Inv, Acquainted, HeardAll;
    forall s: nat, x: nat | Link(t, s, x)
      ensures !Waiting(n, s, x)
    {
      assert LinkLevel(t, n, cut, p, s, x) && Flushed(n, cut, (s, x));
      if Waiting(n, s, x) {
        var m := Head(n, s, x);
        assert m != [] && MsgLevel(n.routers, s, m, p + 1);
        assert m[0] in m;
        NothingThatFar(t, n, s, m[0].dest);
      }
    }
  }

  lemma NothingThatFar(t: Topology, n: Net, s: nat, d: nat)
    requires Inv(t, n) && Compact(t) && Knows(n.routers, s, d)
    ensures Dist(n.routers, s, d) < INFINITY_COST
  {
    hide Inv, Compact;
    if d != s {
      KnownFits(t, n, s, d);
    }
  }

  /** Flush after flush. */
  lemma {:induction false} FlushFrom(t: Topology, states: seq<Net>, events: seq<Event>,
                                     cut: map<(nat, nat), nat>, p: nat)
    returns (more: seq<Net>, rest: seq<Event>)
    requires Configured(t) && Compact(t) && IsRun(t, states, events) && Calm(t, states[|events|], cut, p)
    ensures Prolongs(t, states, events, more, rest) && Quiet(t, more[|rest|])
    decreases INFINITY_COST - p
  {
    hide Run, Configured, Compact, Calm, Flushed, Quiet;
    more, rest := FlushLinks(t, states, events, t.weight.Keys, cut, p, {});
    if p >= INFINITY_COST {
      TopLevelIsQuiet(t, more[|rest|], cut, p);
    } else {
      NextLevel(t, more[|rest|], cut, p);
      var s1, e1 := more, rest;
      more, rest := FlushFrom(t, s1, e1, Lengths(s1[|e1|]), p + 1);
      ProlongsOn(t, states, events, s1, e1, more, rest);
    }
  }

  // ---------------------------------------------------------------- exact costs are calm

  lemma Triangle(t: Topology, a: nat, s: nat, e: nat, c: nat)
    requires Link(t, a, s) && IsDistance(t, s, e, c)
    ensures (exists w :: Joins(t, w, a, e)) && forall k: nat :: IsDistance(t, a, e, k) ==> k <= Weight(t, a, s) + c
  {
    var w :| Joins(t, w, s, e) && WalkCost(t, w) == c;
    PrependCost(t, a, w);
    assert Joins(t, [a] + w, a, e);
    hide Joins, WalkCost, IsWalk;
  }

  /** Exact costs obey the triangle inequality, so nothing heard can lower them. */
  lemma ExactHears(t: Topology, n: Net, a: nat, s: nat, e: nat)
    requires Inv(t, n) && Exact(t, n) && Link(t, a, s) && a in n.routers && s in n.routers && e in n.routers[s].dv
    ensures Heard(t, n.routers, a, s, Entry(e, n.routers[s].dv[e].cost))
  {
    hide Inv, Settled, Joins, IsDistance, Link, Weight;
    SettledAt(t, n, s);
    if e != a {
      assert ExactAt(t, n, s, e) && ExactAt(t, n, a, e);
      Triangle(t, a, s, e, n.routers[s].dv[e].cost);
    }
  }

  lemma ExactIsCalm(t: Topology, n: Net)
    requires Inv(t, n) && Exact(t, n) && Acquainted(t, n)
    ensures Calm(t, n, Lengths(n), 0)
  {
    InvWired(t, n);
    hide Inv, Exact, Acquainted, Link;
    forall a | a in n.routers
      ensures HeardAll(t, n.routers, a)
    {
      forall s, e: nat | Link(t, a, s) && s in n.routers && e in n.routers[s].dv
        ensures Heard(t, n.routers, a, s, Entry(e, n.routers[s].dv[e].cost))
      {
        ExactHears(t, n, a, s, e);
      }
    }
    hide HeardAll;
    forall s: nat, x: nat | Link(t, s, x)
      ensures LinkLevel(t, n, Lengths(n), 0, s, x)
    {
      KnownOnTheWay(t, n, s, x);
    }
  }

  lemma KnownOnTheWay(t: Topology, n: Net, s: nat, x: nat)
    requires Inv(t, n) && Link(t, s, x)
    ensures LinkLevel(t, n, Lengths(n), 0, s, x)
  {
    hide Settled, Routed, Inbox, Knows, Dist, Traced, Falling;
    var queue := n.log[(s, x)][n.taken[(s, x)]..];
    assert Queued(t, n.routers, s, Flat(queue));
    forall i | n.taken[(s, x)] <= i < |n.log[(s, x)]|
      ensures MsgLevel(n.routers, s, n.log[(s, x)][i], 0)
    {
      assert queue[i - n.taken[(s, x)]] == n.log[(s, x)][i];
      InFlat(queue, i - n.taken[(s, x)]);
    }
  }

  lemma {:induction false} InFlat(ms: seq<seq<Entry>>, i: nat)
    requires i < |ms|
    ensures forall e <- ms[i] :: e in Flat(ms)
  {
    if i == 0 {
    } else {
      InFlat(ms[1..], i - 1);
    }
  }

  /** Every run can go on, without further loss, until nothing is on its way. */
  lemma QuietIsReachable(t: Topology, states: seq<Net>, events: seq<Event>) returns (more: seq<Net>, rest: seq<Event>)
    requires Configured(t) && Compact(t) && IsRun(t, states, events)
    ensures Prolongs(t, states, events, more, rest) && Quiet(t, more[|rest|])
  {
    hide Run, Configured, Compact, Quiet, Inv, Exact, Acquainted;
    var s1, e1 := ExactIsReachable(t, states, events);
    LastInv(t, s1, e1);
    ExactIsCalm(t, s1[|e1|]);
    more, rest := FlushFrom(t, s1, e1, Lengths(s1[|e1|]), 0);
    ProlongsOn(t, states, events, s1, e1, more, rest);
  }
}
