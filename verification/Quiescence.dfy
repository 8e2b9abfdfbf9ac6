/** Triggered updates alone suffice: while no link dies and nothing is lost, costs are
    exact whenever every link is measured and nothing is on its way. */
module Quiescence {
  import opened RouterTables
  import opened Advertising
  import opened Topology
  import opened Fifo
  import opened Routes
  import opened RouteSteps
  import opened LoopFree
  import opened Convergence
  import opened Words

  /** What x knows of the route of s to e is current, or will be once the last word on e
      that is on its way has arrived. */
  ghost predicate Informed(t: Topology, n: Net, s: nat, x: nat, e: nat)
    requires Wired(t, n) && Link(t, s, x) && s in n.routers
  {
    Open(t, s, x, n.routers[s].ports) && e in n.routers[s].dv ==>
      var current := Entry(e, n.routers[s].dv[e].cost);
      Heard(t, n.routers, x, s, current) || LastWord(Pending(t, n, s, x), e) == [current]
  }

  ghost predicate AllInformed(t: Topology, n: Net) {
    Wired(t, n) && forall s, x, e: nat :: Link(t, s, x) && s in n.routers ==> Informed(t, n, s, x, e)
  }

  /** What router a says when it becomes q is enough for x: every change, or everything if
      x was not listening before. */
  ghost predicate Tells(t: Topology, a: nat, r: Router, q: Router, x: nat, ads: seq<Entry>) {
    forall e :: e in q.dv ==>
      if LastWord(ads, e) == [] then Open(t, a, x, r.ports) && SameRoute(r.dv, q.dv, e)
      else LastWord(ads, e) == [Entry(e, q.dv[e].cost)]
  }

  lemma LastWordIn(ads: seq<Entry>, d: nat)
    ensures LastWord(ads, d) == [] || (exists e <- ads :: e.dest == d && LastWord(ads, d) == [e])
  {
    if ads != [] {
      LastWordIn(ads[..|ads| - 1], d);
      assert forall e <- ads[..|ads| - 1] :: e in ads;
    }
  }

  // ---------------------------------------------------------------- sending

  lemma OthersStayInformed(t: Topology, n: Net, a: nat, q: Router, packets: seq<seq<Entry>>, s: nat, x: nat, e: nat)
    requires Configured(t) && Steps(t, n, a, q, packets) && Link(t, s, x) && s in n.routers && s != a
    requires Wired(t, Post(t, n, a, q, packets)) && Informed(t, n, s, x, e)
    ensures Informed(t, Post(t, n, a, q, packets), s, x, e)
  {
    hide Settled, Routed, Said, Heard, Improves, Open, Flat, LastWord, Wired, Configured;
    InboxHolds(t, n, s, x);
    PendingPost(t, n, a, q, packets, s, x);
    PostRouters(t, n, a, q, packets);
    hide Post, Pending;
    assert Pending(t, n, s, x) + [] == Pending(t, n, s, x);
    if e in n.routers[s].dv && Heard(t, n.routers, x, s, Entry(e, n.routers[s].dv[e].cost)) {
      HeardKept(t, n.routers, n.routers[a := q], x, s, Entry(e, n.routers[s].dv[e].cost));
    }
  }

  lemma ListenersStayInformed(t: Topology, n: Net, a: nat, q: Router, packets: seq<seq<Entry>>, x: nat, e: nat)
    requires Configured(t) && Steps(t, n, a, q, packets) && Link(t, a, x) && a in n.routers
    requires Wired(t, Post(t, n, a, q, packets)) && Informed(t, n, a, x, e)
    requires Tells(t, a, n.routers[a], q, x, Flat(packets))
    ensures Informed(t, Post(t, n, a, q, packets), a, x, e)
  {
    hide Settled, Routed, Said, Heard, Improves, Open, Flat, LastWord, Wired, Configured;
    InboxHolds(t, n, a, x);
    PendingPost(t, n, a, q, packets, a, x);
    PostRouters(t, n, a, q, packets);
    hide Post, Pending;
    LastWordConcat(Pending(t, n, a, x), Flat(packets), e);
    if e in n.routers[a].dv && Heard(t, n.routers, x, a, Entry(e, n.routers[a].dv[e].cost)) {
      HeardKept(t, n.routers, n.routers[a := q], x, a, Entry(e, n.routers[a].dv[e].cost));
    }
  }

  // ---------------------------------------------------------------- what each event tells

  /** Costs of good routes go out untruncated. */
  lemma CurrentCost(t: Topology, rs: Routers, inbox: Mail, a: nat, e: nat)
    requires Compact(t) && Routed(t, rs, inbox, a) && e in rs[a].dv
    ensures Current(rs[a].dv, e) == rs[a].dv[e].cost
  {
    hide Compact, Traced, Link, Weight, Knows, Dist;
    var c := rs[a].dv[e];
    assert Good(t, rs, inbox, a, e, c.nextHop, c.cost);
    TracedFits(t, rs, a, e, c.cost);
  }

  /** Words that state the current costs, and leave out only what did not change, tell. */
  lemma TellsIf(t: Topology, n: Net, a: nat, q: Router, packets: seq<seq<Entry>>, x: nat, ads: seq<Entry>)
    requires Compact(t) && Steps(t, n, a, q, packets)
    requires forall e :: e in q.dv ==>
               if LastWord(ads, e) == [] then Open(t, a, x, n.routers[a].ports) && SameRoute(n.routers[a].dv, q.dv, e)
               else LastWord(ads, e) == [Entry(e, Current(q.dv, e))]
    ensures Tells(t, a, n.routers[a], q, x, ads)
  {
    hide Compact, Settled, Said, Improves, Routed, LastWord, Current, Open;
    forall e | e in q.dv
      ensures Current(q.dv, e) == q.dv[e].cost
    {
      CurrentCost(t, n.routers[a := q], Inbox(t, n, a), a, e);
    }
  }

  lemma ListingSpeaks(dv: map<nat, Cell>, e: nat)
    requires e in dv
    ensures LastWord(Listing(Costs(dv)), e) == [Entry(e, Current(dv, e))]
  {
    hide LastWord, Listing;
    ListingComplete(Costs(dv), e);
    LastWordIn(Listing(Costs(dv)), e);
    var x :| x in Listing(Costs(dv)) && x.dest == e && LastWord(Listing(Costs(dv)), e) == [x];
    InListing(Costs(dv), x);
  }

  lemma UpdateTells(t: Topology, n: Net, a: nat, x: nat)
    requires Configured(t) && Compact(t) && Inv(t, n) && a in n.routers
    ensures Tells(t, a, n.routers[a], n.routers[a], x, Listing(Costs(n.routers[a].dv)))
  {
    hide Configured, Compact, Inv, Steps, Listing, Costs, LastWord, Current;
    UpdateSteps(t, n, a);
    var dv := n.routers[a].dv;
    forall e | e in dv
      ensures LastWord(Listing(Costs(dv)), e) == [Entry(e, Current(dv, e))]
    {
      ListingSpeaks(dv, e);
    }
    TellsIf(t, n, a, n.routers[a], [Listing(Costs(dv))], x, Listing(Costs(dv)));
  }

  ghost predicate DeliveryTold(t: Topology, n: Net, s: nat, a: nat, now: nat, x: nat)
    requires Enabled(t, n, Deliver(s, a, now))
  {
    var (q, ads) := RecvDV(n.routers[a], t.port[(a, s)], s, Head(n, s, a), now, 0);
    Tells(t, a, n.routers[a], q, x, ads) && q.ports == n.routers[a].ports
  }

  /** A router that is already listening hears every change. */
  lemma DeliverTells(t: Topology, n: Net, s: nat, a: nat, now: nat, x: nat)
    requires Enabled(t, n, Deliver(s, a, now)) && Open(t, a, x, n.routers[a].ports)
    requires Configured(t) && Compact(t) && Inv(t, n)
    ensures DeliveryTold(t, n, s, a, now, x)
  {
    hide Configured, Compact, Inv, Steps, Relax, LastWord, Current, Open, SameRoute, ListedCost;
    DeliverSteps(t, n, s, a, now);
    var r := n.routers[a];
    var (q, ads) := RecvDV(r, t.port[(a, s)], s, Head(n, s, a), now, 0);
    forall e | e in q.dv
      ensures if LastWord(ads, e) == [] then SameRoute(r.dv, q.dv, e)
              else LastWord(ads, e) == [Entry(e, Current(q.dv, e))]
    {
      PacketTells(r, s, Head(n, s, a), now, e);
    }
    TellsIf(t, Pop(n, s, a), a, q, Packets(ads), x, ads);
  }

  /** On first contact a pong tells everything. */
  lemma FirstPongSpeaks(r: Router, p: nat, b: nat, sentAt: nat, now: nat, d: nat)
    requires p in r.ports && !r.ports[p].connected && U32(U32(now - sentAt) - r.ports[p].cost) != 0
    requires d in RecvPong(r, p, b, sentAt, now).0.dv
    ensures exists x <- RecvPong(r, p, b, sentAt, now).1 :: x.dest == d
  {
    hide PongPorts, NextHops, U16, U32, Listing;
    var q := RecvPong(r, p, b, sentAt, now).0;
    var rtt := U32(now - sentAt);
    var diff := U32(rtt - r.ports[p].cost);
    var table := PongTable(r.dv, q.neighbors, b, rtt, diff, now);
    var news := PongNews(r.dv, table, b, rtt, diff, r.ports[p].connected);
    if b in r.dv {
      assert d in news;
      ListingComplete(news, d);
    } else {
      ListingComplete(Costs(q.dv), d);
    }
  }

  lemma PongSpeaks(r: Router, p: nat, b: nat, sentAt: nat, now: nat, d: nat)
    requires p in r.ports && d in RecvPong(r, p, b, sentAt, now).0.dv
    ensures var (q, ads) := RecvPong(r, p, b, sentAt, now);
      if LastWord(ads, d) == [] then SameRoute(r.dv, q.dv, d) else LastWord(ads, d) == [Entry(d, Current(q.dv, d))]
  {
    hide RecvPong, LastWord, SameRoute;
    var (q, ads) := RecvPong(r, p, b, sentAt, now);
    if LastWord(ads, d) == [] {
      PongTellsChanges(r, p, b, sentAt, now, d);
    } else {
      LastWordIn(ads, d);
      var x :| x in ads && x.dest == d && LastWord(ads, d) == [x];
      PongAds(r, p, b, sentAt, now, x);
    }
  }

  lemma NeighborsListen(t: Topology, a: nat, r: Router, b: nat)
    requires Settled(t, a, r)
    ensures b in r.neighbors ==> Open(t, a, b, r.ports)
  {
  }

  /** A port that a pong opens belongs to the neighbour that answered, and was measured
      for the first time. */
  lemma PongOpens(t: Topology, n: Net, a: nat, b: nat, sentAt: nat, now: nat, x: nat)
    requires Configured(t) && Compact(t) && Inv(t, n) && Enabled(t, n, Event.Pong(a, b, sentAt, now)) && Link(t, a, x)
    requires Open(t, a, x, RecvPong(n.routers[a], t.port[(a, b)], b, sentAt, now).0.ports)
    requires !Open(t, a, x, n.routers[a].ports)
    ensures !n.routers[a].ports[t.port[(a, b)]].connected
    ensures U32(U32(now - sentAt) - n.routers[a].ports[t.port[(a, b)]].cost) != 0
  {
    hide Routed, Pending, Queued, Listing, Costs, PongTable, PongNews, NextHops, Consistent, Compact;
    var r, p := n.routers[a], t.port[(a, b)];
    assert t.port[(a, x)] == p;
    assert Settled(t, a, r);
    NeighborsListen(t, a, r, b);
    LinkFits(t, a, b);
    assert Measured(t, a, r, b);
  }

  lemma PongTells(t: Topology, n: Net, a: nat, b: nat, sentAt: nat, now: nat, x: nat)
    requires Configured(t) && Compact(t) && Inv(t, n) && Enabled(t, n, Event.Pong(a, b, sentAt, now)) && Link(t, a, x)
    requires Open(t, a, x, RecvPong(n.routers[a], t.port[(a, b)], b, sentAt, now).0.ports)
    ensures var (q, ads) := RecvPong(n.routers[a], t.port[(a, b)], b, sentAt, now);
      Tells(t, a, n.routers[a], q, x, ads)
  {
    hide Configured, Compact, Inv, Steps, RecvPong, LastWord, Current, Open, SameRoute, U32;
    PongEventSteps(t, n, a, b, sentAt, now);
    var r, p := n.routers[a], t.port[(a, b)];
    var (q, ads) := RecvPong(r, p, b, sentAt, now);
    if !Open(t, a, x, r.ports) {
      PongOpens(t, n, a, b, sentAt, now, x);
    }
    forall e | e in q.dv
      ensures if LastWord(ads, e) == [] then Open(t, a, x, r.ports) && SameRoute(r.dv, q.dv, e)
              else LastWord(ads, e) == [Entry(e, Current(q.dv, e))]
    {
      PongSpeaks(r, p, b, sentAt, now, e);
      if !Open(t, a, x, r.ports) {
        FirstPongSpeaks(r, p, b, sentAt, now, e);
      }
    }
    TellsIf(t, n, a, q, Packets(ads), x, ads);
  }

  // ---------------------------------------------------------------- every event

  /** While a router sends, all who listen stay informed. */
  lemma PostInforms(t: Topology, n: Net, a: nat, q: Router, packets: seq<seq<Entry>>, s: nat, x: nat, e: nat)
    requires Configured(t) && Steps(t, n, a, q, packets) && Link(t, s, x) && s in n.routers
    requires Wired(t, Post(t, n, a, q, packets)) && Informed(t, n, s, x, e)
    requires s == a && Open(t, a, x, q.ports) ==> Tells(t, a, n.routers[a], q, x, Flat(packets))
    ensures Informed(t, Post(t, n, a, q, packets), s, x, e)
  {
    hide Steps, Post, Tells, Configured, Wired, Link, Flat, Pending, Heard, LastWord;
    if s != a {
      OthersStayInformed(t, n, a, q, packets, s, x, e);
    } else {
      PostRouters(t, n, a, q, packets);
      if Open(t, a, x, q.ports) {
        ListenersStayInformed(t, n, a, q, packets, x, e);
      }
    }
  }

  /** Taking a packet off another link changes nothing for this one. */
  lemma PopInforms(t: Topology, n: Net, s: nat, r: nat, x: nat, y: nat, e: nat)
    requires Wired(t, n) && Waiting(n, s, r) && Wired(t, Pop(n, s, r)) && Link(t, x, y) && (x, y) != (s, r)
    requires x in n.routers && Informed(t, n, x, y, e)
    ensures Informed(t, Pop(n, s, r), x, y, e)
  {
    PopOther(t, n, s, r, x, y);
    hide Pending, Heard, LastWord, Open, Wired;
  }

  /** Taking a packet off this link: its last word is heard, or a later one is to come. */
  lemma DeliveryInforms(t: Topology, n: Net, s: nat, a: nat, q: Router, e: nat)
    requires Wired(t, n) && Waiting(n, s, a) && Wired(t, Pop(n, s, a)) && Link(t, s, a) && s != a
    requires s in n.routers && a in n.routers && Informed(t, n, s, a, e) && Improves(n.routers, n.routers[a := q])
    requires forall x <- Head(n, s, a) :: Heard(t, n.routers[a := q], a, s, x)
    ensures Open(t, s, a, n.routers[s].ports) && e in n.routers[s].dv ==>
              var current := Entry(e, n.routers[s].dv[e].cost);
              Heard(t, n.routers[a := q], a, s, current) || LastWord(Pending(t, Pop(n, s, a), s, a), e) == [current]
  {
    hide Heard, Open, LastWord, Improves, Wired;
    PendingPop(t, n, s, a);
    hide Pending;
    LastWordConcat(Head(n, s, a), Pending(t, Pop(n, s, a), s, a), e);
    LastWordIn(Head(n, s, a), e);
    if e in n.routers[s].dv && Heard(t, n.routers, a, s, Entry(e, n.routers[s].dv[e].cost)) {
      HeardKept(t, n.routers, n.routers[a := q], a, s, Entry(e, n.routers[s].dv[e].cost));
    }
  }

  /** Sending something afterwards does not take that back. */
  lemma DeliveryInformsAfter(t: Topology, n: Net, s: nat, a: nat, q: Router, packets: seq<seq<Entry>>, e: nat)
    requires Configured(t) && Wired(t, n) && Waiting(n, s, a) && Steps(t, Pop(n, s, a), a, q, packets)
    requires Link(t, s, a) && s in n.routers && Wired(t, Post(t, Pop(n, s, a), a, q, packets))
    requires Informed(t, n, s, a, e) && forall x <- Head(n, s, a) :: Heard(t, n.routers[a := q], a, s, x)
    ensures Informed(t, Post(t, Pop(n, s, a), a, q, packets), s, a, e)
  {
    hide Settled, Routed, Said, Heard, Improves, Open, Flat, LastWord, Wired;
    var n1 := Pop(n, s, a);
    assert s != a;
    hide Configured;
    DeliveryInforms(t, n, s, a, q, e);
    InboxHolds(t, n1, s, a);
    PendingPost(t, n1, a, q, packets, s, a);
    PostRouters(t, n1, a, q, packets);
    hide Post, Pending;
    assert Pending(t, n1, s, a) + [] == Pending(t, n1, s, a);
  }

  lemma DeliverInformed(t: Topology, n: Net, s: nat, a: nat, now: nat)
    requires Configured(t) && Compact(t) && Inv(t, n) && AllInformed(t, n) && Enabled(t, n, Deliver(s, a, now))
    requires Wired(t, Next(t, n, Deliver(s, a, now)))
    ensures AllInformed(t, Next(t, n, Deliver(s, a, now)))
  {
    hide Configured, Compact, Inv, Steps, Informed, RecvDV, Tells, Post, Wired, Heard, Flat, Packets;
    var (q, ads) := RecvDV(n.routers[a], t.port[(a, s)], s, Head(n, s, a), now, 0);
    DeliverSteps(t, n, s, a, now);
    FlatPackets(ads);
    PopInbox(t, n, s, a, a);
    PostRouters(t, Pop(n, s, a), a, q, Packets(ads));
    forall x: nat, y: nat, e: nat | Link(t, x, y) && x in n.routers
      ensures Informed(t, Next(t, n, Deliver(s, a, now)), x, y, e)
    {
      if (x, y) == (s, a) {
        DeliveryInformsAfter(t, n, s, a, q, Packets(ads), e);
      } else {
        PopInforms(t, n, s, a, x, y, e);
        if x == a {
          PortsKept(n.routers[a], t.port[(a, s)], s, Head(n, s, a), now);
          if Open(t, a, y, q.ports) {
            DeliverTells(t, n, s, a, now, y);
          }
        }
        PostInforms(t, Pop(n, s, a), a, q, Packets(ads), x, y, e);
      }
    }
  }

  lemma PortsKept(r: Router, port: nat, source: nat, entries: seq<Entry>, now: nat)
    ensures RecvDV(r, port, source, entries, now, 0).0.ports == r.ports
  {
    hide Relax, ListedCost;
  }

  lemma PongInformed(t: Topology, n: Net, a: nat, b: nat, sentAt: nat, now: nat)
    requires Configured(t) && Compact(t) && Inv(t, n) && AllInformed(t, n)
    requires Enabled(t, n, Event.Pong(a, b, sentAt, now))
    requires Wired(t, Next(t, n, Event.Pong(a, b, sentAt, now)))
    ensures AllInformed(t, Next(t, n, Event.Pong(a, b, sentAt, now)))
  {
    hide Configured, Compact, Inv, Steps, Informed, RecvPong, Tells, Post, Wired, Flat, Packets, Link, Open;
    var (q, ads) := RecvPong(n.routers[a], t.port[(a, b)], b, sentAt, now);
    PongEventSteps(t, n, a, b, sentAt, now);
    FlatPackets(ads);
    PostRouters(t, n, a, q, Packets(ads));
    forall x: nat, y: nat, e: nat | Link(t, x, y) && x in n.routers
      ensures Informed(t, Next(t, n, Event.Pong(a, b, sentAt, now)), x, y, e)
    {
      if x == a && Open(t, a, y, q.ports) {
        PongTells(t, n, a, b, sentAt, now, y);
      }
      PostInforms(t, n, a, q, Packets(ads), x, y, e);
    }
  }

  lemma UpdateInformed(t: Topology, n: Net, a: nat)
    requires Configured(t) && Compact(t) && Inv(t, n) && AllInformed(t, n) && Enabled(t, n, Update(a))
    requires Wired(t, Next(t, n, Update(a)))
    ensures AllInformed(t, Next(t, n, Update(a)))
  {
    hide Configured, Compact, Inv, Steps, Informed, Listing, Costs, Tells, Post, Wired, Flat, Link, Open;
    var ads := Listing(Costs(n.routers[a].dv));
    UpdateSteps(t, n, a);
    FlatPackets(ads);
    PostRouters(t, n, a, n.routers[a], [ads]);
    forall x: nat, y: nat, e: nat | Link(t, x, y) && x in n.routers
      ensures Informed(t, Next(t, n, Update(a)), x, y, e)
    {
      if x == a {
        UpdateTells(t, n, a, y);
      }
      PostInforms(t, n, a, n.routers[a], [ads], x, y, e);
    }
  }

  lemma NextInformed(t: Topology, n: Net, e: Event)
    requires Configured(t) && Compact(t) && Inv(t, n) && AllInformed(t, n) && Enabled(t, n, e) && !e.Lose?
    ensures AllInformed(t, Next(t, n, e))
  {
    hide Inv, Next, Enabled, Configured, Compact, AllInformed, Wired;
    NextKeeps(t, n, e);
    InvWired(t, Next(t, n, e));
    match e
    case Pong(a, b, sentAt, now) => PongInformed(t, n, a, b, sentAt, now);
    case Update(a) => UpdateInformed(t, n, a);
    case Deliver(s, r, now) => DeliverInformed(t, n, s, r, now);
  }

  lemma InitInformed(t: Topology, n: Net)
    requires Configured(t) && Init(t, n)
    ensures AllInformed(t, n)
  {
    InitInv(t, n);
    InvWired(t, n);
    hide Wired, Pending, Heard, LastWord, Inv;
  }

  lemma {:induction false} RunInformed(t: Topology, states: seq<Net>, events: seq<Event>, i: nat)
    requires Configured(t) && Compact(t) && Run(t, states, events) && i < |states|
    requires forall k :: 0 <= k < i ==> !events[k].Lose?
    ensures AllInformed(t, states[i])
  {
    hide Inv, Next, Enabled, Init, Configured, Compact, AllInformed;
    if i == 0 {
      InitInformed(t, states[0]);
    } else {
      RunInformed(t, states, events, i - 1);
      RunInv(t, states, events, i - 1);
      NextInformed(t, states[i - 1], events[i - 1]);
    }
  }

  // ---------------------------------------------------------------- nothing on its way

  /** Every link is measured, and everything sent was delivered or lost. */
  ghost predicate Quiet(t: Topology, n: Net) {
    Acquainted(t, n) && forall s, x :: Link(t, s, x) ==> !Waiting(n, s, x)
  }

  lemma NothingPending(t: Topology, n: Net, s: nat, x: nat)
    requires Wired(t, n) && Link(t, s, x) && !Waiting(n, s, x)
    ensures (s, x) in n.log && (s, x) in n.taken && n.taken[(s, x)] <= |n.log[(s, x)]|
    ensures Pending(t, n, s, x) == []
  {
  }

  /** In the quiet each router has heard every route of its neighbours. */
  lemma QuietHeard(t: Topology, n: Net, s: nat, x: nat, e: nat)
    requires Inv(t, n) && AllInformed(t, n) && Quiet(t, n) && Link(t, s, x) && s in n.routers && e in n.routers[s].dv
    ensures Heard(t, n.routers, x, s, Entry(e, n.routers[s].dv[e].cost))
  {
    hide Routed, Pending, Queued, Inbox, Heard, Open, LastWord, Wired;
    NeighborsListen(t, s, n.routers[s], x);
    NothingPending(t, n, s, x);
    assert Informed(t, n, s, x, e);
    NoLastWord(e);
  }

  lemma NoLastWord(e: nat)
    ensures LastWord([], e) == []
  {
  }

  /** So no cost is above that of any walk. */
  lemma {:induction false} QuietCovered(t: Topology, n: Net, w: seq<nat>)
    requires Configured(t) && Inv(t, n) && AllInformed(t, n) && Quiet(t, n) && IsWalk(t, w) && w[0] in n.routers
    ensures Covered(t, n, w)
    decreases |w|
  {
    hide Configured, Inv, AllInformed, Quiet;
    if |w| <= 1 {
    } else {
      assert Link(t, w[0], w[1]);
      LinkBack(t, w[0], w[1]);
      InvNodes(t, n);
      TailIsWalk(t, w);
      var s, d := w[1], w[|w| - 1];
      assert w[1..][|w| - 2] == d;
      QuietCovered(t, n, w[1..]);
      if s == d {
        QuietMeasured(t, n);
        LinkCovered(t, n, w);
      } else {
        QuietHeard(t, n, s, w[0], d);
      }
    }
  }

  lemma QuietMeasured(t: Topology, n: Net)
    requires Quiet(t, n)
    ensures Acquainted(t, n)
  {
  }

  /** In every run without loss, whenever every link is measured and nothing is on its way,
      a router has an entry for another exactly if some walk joins them ... */
  lemma QuietReach(t: Topology, states: seq<Net>, events: seq<Event>, i: nat, a: nat, d: nat)
    requires Configured(t) && Compact(t) && Run(t, states, events) && i < |states|
    requires (forall k :: 0 <= k < i ==> !events[k].Lose?) && Quiet(t, states[i])
    requires a in states[i].routers && a != d
    ensures d in states[i].routers[a].dv <==> exists w :: Joins(t, w, a, d)
  {
    hide Configured, Compact, Run, Inv, IsWalk, WalkCost, IsPath, NoRepeats, AllInformed, Quiet;
    RunInv(t, states, events, i);
    RunInformed(t, states, events, i);
    forall w | Joins(t, w, a, d)
      ensures d in states[i].routers[a].dv
    {
      JoinsWalk(t, w, a, d);
      QuietCovered(t, states[i], w);
    }
    if d in states[i].routers[a].dv {
      var w := ForwardingReaches(t, states, events, i, a, d);
    }
  }

  /** ... and its cost is exactly the distance, without any periodic update. */
  lemma QuietIsExact(t: Topology, states: seq<Net>, events: seq<Event>, i: nat, a: nat, d: nat)
    requires Configured(t) && Compact(t) && Run(t, states, events) && i < |states|
    requires (forall k :: 0 <= k < i ==> !events[k].Lose?) && Quiet(t, states[i])
    requires a in states[i].routers && d in states[i].routers[a].dv
    ensures IsDistance(t, a, d, states[i].routers[a].dv[d].cost)
  {
    hide Configured, Compact, Run, Inv, IsWalk, WalkCost, IsPath, NoRepeats, AllInformed, Quiet;
    KnownIsOther(t, states, events, i, a, d);
    RunInv(t, states, events, i);
    RunInformed(t, states, events, i);
    forall w | Joins(t, w, a, d)
      ensures states[i].routers[a].dv[d].cost <= WalkCost(t, w)
    {
      JoinsWalk(t, w, a, d);
      QuietCovered(t, states[i], w);
    }
    var w := ForwardingReaches(t, states, events, i, a, d);
  }
}
