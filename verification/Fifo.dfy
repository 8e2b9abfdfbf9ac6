/** Routers joined by links that keep the order of packets, while no link dies: what a
    router hears from a neighbour is what that neighbour sent, in order, perhaps with
    gaps. */
module Fifo {
  import opened RouterTables
  import opened Topology

  /** log: every packet ever sent from one router to another; taken: how many of them
      were delivered or lost. */
  datatype Net = Net(routers: map<nat, Router>, log: map<(nat, nat), seq<seq<Entry>>>, taken: map<(nat, nat), nat>)

  datatype Event =
    | Pong(at: nat, from: nat, sentAt: nat, now: nat)
    | Update(at: nat)
    | Deliver(from: nat, to: nat, now: nat)
    | Lose(from: nat, to: nat)

  ghost predicate Init(t: Topology, n: Net) {
    && n.routers.Keys == t.nodes && n.log.Keys == t.weight.Keys && n.taken.Keys == t.weight.Keys
    && (forall a :: a in t.nodes ==> n.routers[a] == Start(a, t.numPorts))
    && (forall l :: l in t.weight ==> n.log[l] == [] && n.taken[l] == 0)
  }

  /** Something from s to r is still on its way. */
  predicate Waiting(n: Net, s: nat, r: nat) {
    (s, r) in n.log && (s, r) in n.taken && n.taken[(s, r)] < |n.log[(s, r)]|
  }

  function Head(n: Net, s: nat, r: nat): seq<Entry>
    requires Waiting(n, s, r)
  {
    n.log[(s, r)][n.taken[(s, r)]]
  }

  function Pop(n: Net, s: nat, r: nat): Net
    requires Waiting(n, s, r)
  {
    n.(taken := n.taken[(s, r) := n.taken[(s, r)] + 1])
  }

  /** Router a becomes q and sends packets on every connected port. */
  function Post(t: Topology, n: Net, a: nat, q: Router, packets: seq<seq<Entry>>): Net {
    Net(n.routers[a := q],
        map l | l in n.log :: if l.0 == a && Open(t, a, l.1, q.ports) then n.log[l] + packets else n.log[l],
        n.taken)
  }

  /** The handlers send what there is to advertise, and nothing if there is nothing. */
  function Packets(ads: seq<Entry>): seq<seq<Entry>> {
    if ads == [] then [] else [ads]
  }

  /** Round-trip times are those of the links, and a neighbour answers a ping before it
      is heard of otherwise. */
  predicate Enabled(t: Topology, n: Net, e: Event) {
    match e
    case Pong(a, b, sentAt, now) =>
      && Link(t, a, b) && a in n.routers && (a, b) in t.port && t.port[(a, b)] in n.routers[a].ports
      && now == sentAt + Weight(t, a, b)
    case Update(a) => a in n.routers
    case Deliver(s, r, now) =>
      Waiting(n, s, r) && (r, s) in t.port && r in n.routers && s in n.routers[r].neighbors
    case Lose(s, r) => Waiting(n, s, r)
  }

  ghost function Next(t: Topology, n: Net, e: Event): Net
    requires Enabled(t, n, e)
  {
    match e
    case Pong(a, b, sentAt, now) =>
      var (q, ads) := RecvPong(n.routers[a], t.port[(a, b)], b, sentAt, now);
      Post(t, n, a, q, Packets(ads))
    case Update(a) => Post(t, n, a, n.routers[a], [Listing(Costs(n.routers[a].dv))])
    case Deliver(s, r, now) =>
      var (q, ads) := RecvDV(n.routers[r], t.port[(r, s)], s, Head(n, s, r), now, 0);
      Post(t, Pop(n, s, r), r, q, Packets(ads))
    case Lose(s, r) => Pop(n, s, r)
  }

  ghost predicate Run(t: Topology, states: seq<Net>, events: seq<Event>) {
    && |states| == |events| + 1 && Init(t, states[0])
    && forall i :: 0 <= i < |events| ==>
         Enabled(t, states[i], events[i]) && states[i + 1] == Next(t, states[i], events[i])
  }

  // ---------------------------------------------------------------- what is on its way

  function Flat(ms: seq<seq<Entry>>): seq<Entry> {
    if ms == [] then [] else ms[0] + Flat(ms[1..])
  }

  lemma {:induction false} FlatAppend(x: seq<seq<Entry>>, y: seq<seq<Entry>>)
    ensures Flat(x + y) == Flat(x) + Flat(y)
  {
    if x == [] {
      assert x + y == y;
    } else {
      assert (x + y)[1..] == x[1..] + y && (x + y)[0] == x[0];
      FlatAppend(x[1..], y);
      assert Flat(x + y) == x[0] + Flat(x[1..] + y);
    }
  }

  lemma FlatPackets(ads: seq<Entry>)
    ensures Flat(Packets(ads)) == ads && Flat([ads]) == ads
  {
  }

  /** Tables, logs and counters cover the configured routers and links. */
  ghost predicate Wired(t: Topology, n: Net) {
    && n.routers.Keys == t.nodes && n.log.Keys == t.weight.Keys && n.taken.Keys == t.weight.Keys
    && (forall l :: l in t.weight ==> n.taken[l] <= |n.log[l]|)
  }

  /** The entries on their way from s to r, oldest first. */
  function Pending(t: Topology, n: Net, s: nat, r: nat): seq<Entry>
    requires (s, r) in n.log && (s, r) in n.taken && n.taken[(s, r)] <= |n.log[(s, r)]|
  {
    Flat(n.log[(s, r)][n.taken[(s, r)]..])
  }

  lemma PostWired(t: Topology, n: Net, a: nat, q: Router, packets: seq<seq<Entry>>)
    requires Wired(t, n) && a in n.routers
    ensures Wired(t, Post(t, n, a, q, packets))
  {
  }

  lemma PendingPop(t: Topology, n: Net, s: nat, r: nat)
    requires Waiting(n, s, r)
    ensures Pending(t, n, s, r) == Head(n, s, r) + Pending(t, Pop(n, s, r), s, r)
  {
  }

  lemma PendingPost(t: Topology, n: Net, a: nat, q: Router, packets: seq<seq<Entry>>, s: nat, r: nat)
    requires Wired(t, n) && a in n.routers && Link(t, s, r) && Wired(t, Post(t, n, a, q, packets))
    ensures Pending(t, Post(t, n, a, q, packets), s, r)
            == Pending(t, n, s, r) + (if s == a && Open(t, a, r, q.ports) then Flat(packets) else [])
  {
    hide Open, Flat;
    var queue, k := n.log[(s, r)], n.taken[(s, r)];
    if s == a && Open(t, a, r, q.ports) {
      AppendFlat(queue, packets, k);
    } else {
      assert Pending(t, n, s, r) + [] == Pending(t, n, s, r);
    }
  }

  lemma AppendFlat(queue: seq<seq<Entry>>, packets: seq<seq<Entry>>, k: nat)
    requires k <= |queue|
    ensures Flat((queue + packets)[k..]) == Flat(queue[k..]) + Flat(packets)
  {
    assert (queue + packets)[k..] == queue[k..] + packets;
    hide Flat;
    FlatAppend(queue[k..], packets);
  }
}
