/** What a router tells its neighbours about a change is what they need to know: every
    change is advertised, and the last word on a destination is the current one. */
module Advertising {
  import opened RouterTables
  import opened RouterInvariant
  import opened Words

  /** The cost of d in the messages of a router; infinite without a route. */
  function Current(dv: map<nat, Cell>, d: nat): nat {
    if d in dv then U16(dv[d].cost) else INFINITY_COST
  }

  /** The last of the advertisements for d, if there is one. */
  function LastWord(ads: seq<Entry>, d: nat): (w: seq<Entry>)
    ensures w != [] <==> exists e <- ads :: e.dest == d
  {
    if ads == [] then []
    else if ads[|ads| - 1].dest == d then [ads[|ads| - 1]]
    else
      assert ads == ads[..|ads| - 1] + [ads[|ads| - 1]];
      LastWord(ads[..|ads| - 1], d)
  }

  predicate SameRoute(dv: map<nat, Cell>, dv': map<nat, Cell>, d: nat) {
    (d in dv <==> d in dv') && (d in dv ==> dv[d].cost == dv'[d].cost && dv[d].nextHop == dv'[d].nextHop)
  }

  lemma {:induction false} LastWordConcat(x: seq<Entry>, y: seq<Entry>, d: nat)
    ensures LastWord(x + y, d) == if LastWord(y, d) == [] then LastWord(x, d) else LastWord(y, d)
  {
    if y == [] {
      assert x + y == x;
    } else {
      var n := |y| - 1;
      assert (x + y)[..|x| + n] == x + y[..n] && (x + y)[|x| + n] == y[n];
      LastWordConcat(x, y[..n], d);
    }
  }

  /** One entry: silence on d means that its route is the same, and the last word on d is
      its current cost. */
  lemma EntryTells(r: Router, source: nat, e: Entry, now: nat, d: nat)
    requires source in r.neighbors
    ensures var v := Judge(r, source, e);
      (v.Keep? && v.echoes > 0 ==> e.dest in r.dv) &&
      var w, q := LastWord(Adverts(r, e.dest, v), d), Apply(r, e.dest, v, now);
      if w == [] then SameRoute(r.dv, q.dv, d) else w == [Entry(d, Current(q.dv, d))]
  {
    var v := Judge(r, source, e);
    assert v.Keep? && v.echoes > 0 ==> e.dest in r.dv;
    hide Judge, U16;
    assert LastWord([], d) == [];
  }

  /** A whole packet, of any contents: what is sent on after it leaves out a destination
      only if its route is the same as before, and its last word on a destination is the
      cost in the table then. */
  lemma {:induction false} PacketTells(r: Router, source: nat, entries: seq<Entry>, now: nat, d: nat)
    requires source in r.neighbors
    ensures var (q, ads) := Relax(r, source, entries, now);
      if LastWord(ads, d) == [] then SameRoute(r.dv, q.dv, d) else LastWord(ads, d) == [Entry(d, Current(q.dv, d))]
  {
    hide Judge, U16, Apply, Adverts, LastWord;
    if entries == [] {
      assert LastWord([], d) == [];
    } else {
      var n := |entries| - 1;
      var e := entries[n];
      PacketTells(r, source, entries[..n], now, d);
      var (u, ads) := Relax(r, source, entries[..n], now);
      EntryTells(u, source, e, now, d);
      LastWordConcat(ads, Adverts(u, e.dest, Judge(u, source, e)), d);
    }
  }

  lemma InListing(m: map<nat, nat>, x: Entry)
    requires x in Listing(m)
    ensures x.dest in m && x.cost == m[x.dest]
  {
  }

  lemma PongAds(r: Router, p: nat, b: nat, sentAt: nat, now: nat, x: Entry)
    requires p in r.ports && x in RecvPong(r, p, b, sentAt, now).1
    ensures var q := RecvPong(r, p, b, sentAt, now).0;
      x.dest in q.dv && x.cost == U16(q.dv[x.dest].cost)
  {
    hide PongTable, PongPorts, NextHops, IsNews, U16, U32;
    var q := RecvPong(r, p, b, sentAt, now).0;
    var rtt := U32(now - sentAt);
    var diff := U32(rtt - r.ports[p].cost);
    var table := PongTable(r.dv, q.neighbors, b, rtt, diff, now);
    PongKeys(r.ports, r.dv, q.neighbors, p, b, rtt, diff, now);
    var news := PongNews(r.dv, table, b, rtt, diff, r.ports[p].connected);
    if x in Listing(news) {
      InListing(news, x);
    } else {
      InListing(Costs(q.dv), x);
    }
  }

  /** A pong tells its changes: a destination it leaves out has the same route as before. */
  lemma PongTellsChanges(r: Router, p: nat, b: nat, sentAt: nat, now: nat, d: nat)
    requires p in r.ports
    requires forall x <- RecvPong(r, p, b, sentAt, now).1 :: x.dest != d
    ensures SameRoute(r.dv, RecvPong(r, p, b, sentAt, now).0.dv, d)
  {
    hide PongPorts, NextHops, U16, U32, Listing, LastWord;
    var q := RecvPong(r, p, b, sentAt, now).0;
    var rtt := U32(now - sentAt);
    var diff := U32(rtt - r.ports[p].cost);
    var table := PongTable(r.dv, q.neighbors, b, rtt, diff, now);
    var news := PongNews(r.dv, table, b, rtt, diff, r.ports[p].connected);
    if d in news {
      ListingComplete(news, d);
    }
    if d in q.dv && b !in table {
      ListingComplete(Costs(q.dv), d);
    }
  }
}
