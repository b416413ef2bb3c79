/** The sequential doubly-linked list of zm_sdlist.h, on the heap. */
module SdList {
  import opened ScanSpec

  type Data = int
  const NULL: Data := 0

  /** A list cell; its data and the list it is in never change. */
  class Node {
    const data: Data
    ghost const home: object
    var next: Node?
    var prev: Node?

    constructor (d: Data, ghost list: object)
      ensures data == d && home == list && next == null && prev == null
    {
      data, home, next, prev := d, list, null, null;
    }
  }

  /** The `i`-th cell, or null beyond either end. */
  ghost function At(nodes: seq<Node>, i: int): Node? {
    if 0 <= i < |nodes| then nodes[i] else null
  }

  ghost function DataOf(nodes: seq<Node>): (ds: seq<Data>)
    ensures |ds| == |nodes| && forall k :: 0 <= k < |nodes| ==> ds[k] == nodes[k].data
  {
    seq(|nodes|, k requires 0 <= k < |nodes| => nodes[k].data)
  }

  /** The `i`-th cell points to its neighbours. */
  ghost predicate LinkedAt(nodes: seq<Node>, i: nat)
    reads nodes
  {
    i < |nodes| ==> nodes[i].next == At(nodes, i + 1) && nodes[i].prev == At(nodes, i - 1)
  }

  class List {
    var head: Node?
    var tail: Node?
    var length: int
    ghost var nodes: seq<Node>  // the cells in order
    ghost var repr: set<Node>   // all cells the list ever had

    /** Head, tail and the links of both directions describe the cells in order. */
    ghost predicate Linked()
      reads this, repr
    {
      && NoDuplicates(nodes) && (forall k :: 0 <= k < |nodes| ==> nodes[k] in repr)
      && head == At(nodes, 0)
      && tail == At(nodes, |nodes| - 1)
      && (forall i: nat :: LinkedAt(nodes, i))
      && (forall n :: n in repr ==> n.home == this)
    }

    ghost predicate Valid()
      reads this, repr
    {
      Linked() && length == |nodes|
    }

    ghost function Contents(): seq<Data>
      reads this
    {
      DataOf(nodes)
    }

    constructor ()
      ensures Valid() && nodes == [] && repr == {}
    {
      head, tail, length, nodes, repr := null, null, 0, [], {};
    }

    /** zm_sdlist_push_back */
    method PushBack(d: Data)
      requires Linked()
      modifies this, repr
      ensures Linked() && length == old(length) + 1
      ensures Contents() == old(Contents()) + [d]
      ensures nodes[..|old(nodes)|] == old(nodes) && fresh(repr - old(repr))
    {
      ghost var n := |nodes|;
      var last := tail;
      var node := new Node(d, this);
      Appended(nodes, node);
      hide NoDuplicates, DataOf;
      if last == null {
        head, tail := node, node;
      } else {
        last.next := node;
        node.prev := last;
        tail := node;
      }
      length := length + 1;
      nodes, repr := nodes + [node], repr + {node};
      forall k: nat ensures LinkedAt(nodes, k) {
        assert old(LinkedAt(nodes, k)) && (k < n ==> nodes[k] == old(nodes)[k]);
      }
    }

    /** zm_sdlist_pop_front: the length goes down even if there was nothing to pop. */
    method PopFront() returns (d: Data)
      requires Linked()
      modifies this, repr
      ensures Linked() && length == old(length) - 1
      ensures repr == old(repr)
      ensures old(nodes) == [] ==> nodes == [] && d == NULL
      ensures old(nodes) != [] ==>
                nodes == old(nodes)[1..] && d == old(Contents())[0] && Contents() == old(Contents())[1..]
    {
      d := NULL;
      length := length - 1;
      var first := head;
      if first != null {
        assert LinkedAt(nodes, 0);
        head := first.next;
        if head != null { head.prev := null; } else { tail := null; }
        d := first.data;
        nodes := nodes[1..];
        forall k: nat ensures LinkedAt(nodes, k) {
          assert old(LinkedAt(nodes, k + 1)) && (k < |nodes| ==> nodes[k] == old(nodes)[k + 1]);
        }
      }
    }

    /** zm_sdlist_rmnode: unlinks one cell of the list, the `i`-th. */
    method RmNode(node: Node, ghost i: nat)
      requires Linked() && i < |nodes| && nodes[i] == node
      modifies this, repr
      ensures Linked() && length == old(length) - 1
      ensures nodes == old(nodes)[..i] + old(nodes)[i + 1..] && repr == old(repr)
    {
      assert LinkedAt(nodes, i);
      if node == head { head := node.next; }
      if node == tail { tail := node.prev; }
      if node.prev != null { node.prev.next := node.next; }
      if node.next != null { node.next.prev := node.prev; }
      length := length - 1;
      nodes := nodes[..i] + nodes[i + 1..];
      forall k: nat ensures LinkedAt(nodes, k) {
        assert old(LinkedAt(nodes, k)) && old(LinkedAt(nodes, k + 1));
        assert k < |nodes| ==> nodes[k] == if k < i then old(nodes)[k] else old(nodes)[k + 1];
      }
    }

    /** The loop of zm_sdlist_remove: the first cell that holds `d`, the `i`-th. */
    method Find(d: Data) returns (node: Node?, ghost i: nat)
      requires Linked()
      ensures Linked() && i <= |nodes| && node == At(nodes, i) && d !in Contents()[..i]
      ensures node == null ==> d !in Contents()
      ensures node != null ==> node.data == d
    {
      hide NoDuplicates;
      node, i := head, 0;
      while node != null && node.data != d
        invariant i <= |nodes| && node == At(nodes, i) && d !in Contents()[..i]
        decreases |nodes| - i
      {
        assert LinkedAt(nodes, i);
        node := node.next;
        i := i + 1;
      }
      assert i == |nodes| ==> Contents()[..i] == Contents();
    }

    /** zm_sdlist_remove: unlinks the first cell that holds `d`, if there is one. */
    method Remove(d: Data) returns (found: bool)
      requires Linked()
      modifies this, repr
      ensures Linked() && length == old(length) - (if found then 1 else 0)
      ensures found <==> d in old(Contents())
      ensures Contents() == RemoveFirst(old(Contents()), d)
      ensures repr == old(repr)
    {
      hide RemoveFirst, Linked, NoDuplicates;
      ghost var i: nat;
      var node;
      node, i := Find(d);
      found := node != null;
      if found { RmFound(node, d, i); }
    }

    /** The cell found is unlinked. */
    method RmFound(node: Node, d: Data, ghost i: nat)
      requires Linked() && i < |nodes| && nodes[i] == node && node.data == d && d !in Contents()[..i]
      modifies this, repr
      ensures Linked() && length == old(length) - 1 && repr == old(repr)
      ensures Contents() == RemoveFirst(old(Contents()), d)
    {
      RemovedAt(Contents(), d, i);
      DataCut(nodes, i);
      hide RemoveFirst, Linked, NoDuplicates, DataOf;
      RmNode(node, i);
    }

    /** zm_sdlist_free: pops up to and including the first NULL entry; without one, everything, and the
        length ends up one too low. */
    method Free()
      requires Linked()
      modifies this, repr
      ensures Linked() && repr == old(repr)
      ensures NULL !in old(Contents()) ==> nodes == [] && length == old(length) - |old(nodes)| - 1
      ensures NULL in old(Contents()) ==>
                exists k: nat :: k < |old(nodes)| && old(Contents())[k] == NULL && NULL !in old(Contents())[..k]
                  && nodes == old(nodes)[k + 1..] && length == old(length) - (k + 1)
    {
      hide Linked, NoDuplicates, LinkedAt;
      ghost var k := 0;
      var d := PopFront();
      while d != NULL
        invariant Linked() && k <= |old(nodes)| && length == old(length) - (k + 1)
        invariant NULL !in old(Contents())[..k]
        invariant k == |old(nodes)| ==> d == NULL && nodes == []
        invariant k < |old(nodes)| ==> d == old(Contents())[k] && nodes == old(nodes)[k + 1..]
        invariant repr == old(repr)
        decreases |old(nodes)| - k
      {
        d := PopFront();
        k := k + 1;
      }
      assert k == |old(nodes)| ==> old(Contents())[..k] == old(Contents());
    }
  }

  lemma DataCut(nodes: seq<Node>, i: nat)
    requires i < |nodes|
    ensures DataOf(nodes[..i] + nodes[i + 1..]) == DataOf(nodes)[..i] + DataOf(nodes)[i + 1..]
  {
  }

  lemma Appended(nodes: seq<Node>, node: Node)
    requires NoDuplicates(nodes) && node !in nodes
    ensures NoDuplicates(nodes + [node]) && DataOf(nodes + [node]) == DataOf(nodes) + [node.data]
  {
  }

  /** Different lists share no cell. */
  lemma Apart(a: List, b: List)
    requires a.Linked() && b.Linked() && a != b
    ensures a.repr !! b.repr
  {
  }

  lemma NextCell(l: List, i: nat)
    requires l.Linked() && i < |l.nodes|
    ensures l.nodes[i].next == At(l.nodes, i + 1)
  {
    assert LinkedAt(l.nodes, i);
  }

  lemma CutHead(ds: seq<Data>, i: nat)
    requires 0 < i < |ds|
    ensures ds[..i] == [ds[0]] + ds[1..][..i - 1] && ds[i + 1..] == ds[1..][i..]
  {
  }

  lemma Regroup(x: Data, a: seq<Data>, b: seq<Data>)
    ensures [x] + (a + b) == ([x] + a) + b
  {
  }

  lemma {:induction false} RemovedAt(ds: seq<Data>, d: Data, i: nat)
    requires i < |ds| && ds[i] == d && d !in ds[..i]
    ensures RemoveFirst(ds, d) == ds[..i] + ds[i + 1..]
  {
    if i > 0 {
      var rest := ds[1..];
      assert d != ds[0] by { assert ds[0] in ds[..i]; }
      assert RemoveFirst(ds, d) == [ds[0]] + RemoveFirst(rest, d);
      hide RemoveFirst;
      CutHead(ds, i);
      RemovedAt(rest, d, i - 1);
      Regroup(ds[0], rest[..i - 1], rest[i..]);
    }
  }
}
