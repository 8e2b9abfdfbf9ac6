/** The singly linked queue of project2/fix_queue.h, refining a sequence. */
module FixQueue {

  class Node<T> {
    var data: T
    var next: Node?<T>

    constructor (data: T)
      ensures this.data == data && next == null
    {
      this.data := data;
      next := null;
    }
  }

  class Queue<T> {
    var root: Node?<T>
    ghost var nodes: seq<Node<T>>
    ghost var Repr: set<Node<T>>  // every node this queue has ever held
    ghost var Contents: seq<T>  // the data of the nodes, front first

    constructor ()
      ensures Valid() && Repr == {} && Contents == []
    {
      root := null;
      nodes, Repr, Contents := [], {}, [];
    }

    ghost function NodeAt(i: nat): Node?<T>
      reads this
    {
      if i < |nodes| then nodes[i] else null
    }

    /** The chain from root visits exactly `nodes`, each node once. */
    ghost predicate Valid()
      reads this, Repr
    {
      && root == NodeAt(0)
      && |Contents| == |nodes|
      && (forall i :: 0 <= i < |nodes| ==>
            nodes[i] in Repr && nodes[i].next == NodeAt(i + 1) && nodes[i].data == Contents[i])
      && (forall i, j :: 0 <= i < j < |nodes| ==> nodes[i] != nodes[j])
    }

    method Enqueue(n: Node<T>)
      requires Valid() && n !in Repr && n.next == null
      modifies this, Repr
      ensures Valid() && Repr == old(Repr) + {n} && nodes == old(nodes) + [n]
      ensures Contents == old(Contents) + [n.data] && n.data == old(n.data)
    {
      if root == null {
        root := n;
      } else {
        var tmp: Node<T> := root;
        ghost var i := 0;
        while tmp.next != null
          invariant 0 <= i < |nodes| && tmp == nodes[i]
          decreases |nodes| - i
        {
          tmp := tmp.next;
          i := i + 1;
        }
        tmp.next := n;
      }
      nodes, Repr, Contents := nodes + [n], Repr + {n}, Contents + [n.data];
    }

    /** Allocate a node for the data and enqueue it. */
    method EnqueueNew(data: T)
      requires Valid()
      modifies this, Repr
      ensures Valid() && fresh(Repr - old(Repr))
      ensures Contents == old(Contents) + [data]
    {
      var n := new Node<T>(data);
      Enqueue(n);
    }

    method Dequeue()
      requires Valid()
      modifies this
      ensures Valid() && Repr == old(Repr)
      ensures nodes == if old(nodes) == [] then [] else old(nodes)[1..]
      ensures Contents == if old(Contents) == [] then [] else old(Contents)[1..]
    {
      if root == null {
        return;
      }
      root := root.next;
      nodes, Contents := nodes[1..], Contents[1..];
    }

    method GetK(k: int) returns (n: Node?<T>)
      requires Valid()
      ensures n == if k >= 0 then NodeAt(k) else null
    {
      if root == null {
        return null;
      }
      var temp: Node<T> := root;
      var left := k;
      while left > 0 && temp.next != null
        invariant 0 <= k - left < |nodes| && (left >= 0 || left == k)
        invariant temp == nodes[k - left]
      {
        temp := temp.next;
        left := left - 1;
      }
      if left == 0 {
        n := temp;
      } else {
        n := null;
      }
    }
  }
}
