/** The configured network: routers, links with fixed round-trip times, walks. */
module Topology {
  import opened RouterTables

  /** weight: the round-trip time of each link, listed in both directions; port: the
      port of the first router on which the second is attached. */
  datatype Topology = Topology(nodes: set<nat>, weight: map<(nat, nat), nat>, port: map<(nat, nat), nat>, numPorts: nat)

  predicate Link(t: Topology, a: nat, b: nat) {
    (a, b) in t.weight
  }

  function Weight(t: Topology, a: nat, b: nat): nat
    requires Link(t, a, b)
  {
    t.weight[(a, b)]
  }

  ghost predicate Configured(t: Topology) {
    && (forall a, b :: Link(t, a, b) ==>
          && a in t.nodes && b in t.nodes && a != b && Link(t, b, a) && Weight(t, b, a) == Weight(t, a, b)
          && 0 < Weight(t, a, b) && (a, b) in t.port && t.port[(a, b)] < t.numPorts)
    && (forall a, b, c :: Link(t, a, b) && Link(t, a, c) && t.port[(a, b)] == t.port[(a, c)] ==> b == c)
  }

  /** The port of a towards b is connected, so that sendDVUpdate at a reaches b. */
  predicate Open(t: Topology, a: nat, b: nat, ports: map<nat, Port>) {
    (a, b) in t.port && t.port[(a, b)] in ports && ports[t.port[(a, b)]].connected
  }

  /** w visits linked routers one after the other. */
  ghost predicate IsWalk(t: Topology, w: seq<nat>) {
    w != [] && forall i :: 0 <= i < |w| - 1 ==> Link(t, w[i], w[i + 1])
  }

  ghost predicate Joins(t: Topology, w: seq<nat>, a: nat, b: nat) {
    IsWalk(t, w) && w[0] == a && w[|w| - 1] == b
  }

  ghost function WalkCost(t: Topology, w: seq<nat>): nat
    requires IsWalk(t, w)
  {
    if |w| == 1 then 0 else Weight(t, w[0], w[1]) + WalkCost(t, w[1..])
  }

  /** Some walk from a to b costs at most c: the shortest distance is at most c. */
  ghost predicate Within(t: Topology, a: nat, b: nat, c: int) {
    exists w :: Joins(t, w, a, b) && WalkCost(t, w) <= c
  }

  lemma PrependCost(t: Topology, a: nat, w: seq<nat>)
    requires IsWalk(t, w) && Link(t, a, w[0])
    ensures IsWalk(t, [a] + w) && WalkCost(t, [a] + w) == Weight(t, a, w[0]) + WalkCost(t, w)
  {
  }

  lemma {:induction false} ConcatCost(t: Topology, v: seq<nat>, w: seq<nat>)
    requires IsWalk(t, v) && IsWalk(t, w) && v[|v| - 1] == w[0]
    ensures IsWalk(t, v + w[1..]) && WalkCost(t, v + w[1..]) == WalkCost(t, v) + WalkCost(t, w)
    decreases |v|
  {
    if |v| == 1 {
      assert v + w[1..] == w;
    } else {
      var x := v[1..];
      assert IsWalk(t, x) by {
        forall i | 0 <= i < |x| - 1 ensures Link(t, x[i], x[i + 1]) {
          assert Link(t, v[i + 1], v[i + 2]);
        }
      }
      ConcatCost(t, x, w);
      assert Link(t, v[0], v[1]);
      PrependCost(t, v[0], x + w[1..]);
      assert [v[0]] + (x + w[1..]) == v + w[1..];
    }
  }

  lemma WithinLink(t: Topology, a: nat, b: nat)
    requires Link(t, a, b)
    ensures Within(t, a, b, Weight(t, a, b))
  {
    PrependCost(t, a, [b]);
    assert Joins(t, [a] + [b], a, b);
  }

  lemma WithinMore(t: Topology, a: nat, b: nat, c: int, d: int)
    requires Within(t, a, b, c) && c <= d
    ensures Within(t, a, b, d)
  {
  }

  lemma WithinConcat(t: Topology, a: nat, m: nat, b: nat, c: int, d: int)
    requires Within(t, a, m, c) && Within(t, m, b, d)
    ensures Within(t, a, b, c + d)
  {
    var v :| Joins(t, v, a, m) && WalkCost(t, v) <= c;
    var w :| Joins(t, w, m, b) && WalkCost(t, w) <= d;
    ConcatCost(t, v, w);
    assert Joins(t, v + w[1..], a, b);
  }

  /** Links work in both directions, so distances are symmetric. */
  lemma {:induction false} ReverseWalk(t: Topology, w: seq<nat>) returns (v: seq<nat>)
    requires Configured(t) && IsWalk(t, w)
    ensures Joins(t, v, w[|w| - 1], w[0]) && WalkCost(t, v) == WalkCost(t, w)
    decreases |w|
  {
    if |w| == 1 {
      v := w;
    } else {
      var x := w[1..];
      forall i | 0 <= i < |x| - 1 ensures Link(t, x[i], x[i + 1]) {
        assert Link(t, w[i + 1], w[i + 2]);
      }
      v := ReverseWalk(t, x);
      assert Link(t, w[0], w[1]);
      var last := [w[1], w[0]];
      assert Link(t, last[0], last[1]);
      PrependCost(t, w[1], [w[0]]);
      assert [w[1]] + [w[0]] == last;
      ConcatCost(t, v, last);
      v := v + last[1..];
    }
  }

  lemma WithinSymmetric(t: Topology, a: nat, b: nat, c: int)
    requires Configured(t) && Within(t, a, b, c)
    ensures Within(t, b, a, c)
  {
    var w :| Joins(t, w, a, b) && WalkCost(t, w) <= c;
    var v := ReverseWalk(t, w);
  }
}
