/** Building and tearing down the HMCS tree: the loops of new_lock, and free_lock. */
module HmcsTree {
  import opened Arith
  import opened HmcsShape
  import Hmcs
  import opened ScanSpec

  /** A tree node of the lock. */
  class Node {
    const threshold: nat
    var parent: Node?

    constructor (t: nat)
      ensures threshold == t && parent == null
    {
      threshold, parent := t, null;
    }
  }

  /** A thread's leaf. */
  class Leaf {
    const curNode: Node
    const rootNode: Node

    constructor (c: Node, r: Node)
      ensures curNode == c && rootNode == r
    {
      curNode, rootNode := c, r;
    }
  }

  /** The node of level `l` and group `j` has been created once the threads before `tid`, and `tid`
      itself for the levels below `level`, are through. */
  predicate Made(p: seq<nat>, l: nat, j: nat, tid: nat, level: nat)
    requires l < |p|
  {
    Master(p, l, j) < tid || (Master(p, l, j) == tid && l < level)
  }

  ghost predicate MadeAt(p: seq<nat>, max: nat, table: seq<Node?>, l: nat, j: nat, tid: nat, level: nat)
    requires Chain(p, max) && |table| == Total(p, max)
  {
    l < |p| && j < Width(p, max, l) ==>
      Slot(p, max, l, j) < |table| && (table[Slot(p, max, l, j)] != null <==> Made(p, l, j, tid, level))
  }

  /** Exactly the nodes due by now are in the table, each a different object. */
  ghost predicate Partial(p: seq<nat>, max: nat, table: seq<Node?>, tid: nat, level: nat) {
    && Chain(p, max) && |table| == Total(p, max)
    && (forall l: nat, j: nat :: MadeAt(p, max, table, l, j, tid, level))
    && (forall s, t :: 0 <= s < t < |table| && table[s] != null ==> table[s] != table[t])
  }

  /** `level` of thread `tid` has nothing to create: its node exists since an earlier thread. */
  lemma SkipLevel(p: seq<nat>, max: nat, table: seq<Node?>, tid: nat, level: nat)
    requires Partial(p, max, table, tid, level) && level < |p| && tid < max && tid % p[level] != 0
    ensures Partial(p, max, table, tid, level + 1)
  {
    var next := level + 1;
    forall l: nat, j: nat ensures MadeAt(p, max, table, l, j, tid, next) {
      assert MadeAt(p, max, table, l, j, tid, level);
      if l == level && j < Width(p, max, l) { MasterOfGroup(p, max, l, j); }
    }
    hide MadeAt;
  }

  /** `level` of thread `tid` creates its node, in a place nobody has written. */
  lemma CreateAtLevel(p: seq<nat>, max: nat, table: seq<Node?>, tid: nat, level: nat, node: Node)
    requires Partial(p, max, table, tid, level) && level < |p| && tid < max && tid % p[level] == 0
    requires node !in table
    ensures var s := Slot(p, max, level, Group(p, level, tid));
            s < |table| && table[s] == null && Partial(p, max, table[s := node], tid, level + 1)
  {
    var g := Group(p, level, tid);
    GroupBounds(p, max, level, tid);
    SlotsDiffer(p, max, level, g, level, g);
    var s := Slot(p, max, level, g);
    assert MadeAt(p, max, table, level, g, tid, level);
    var after, next := table[s := node], level + 1;
    forall l: nat, j: nat ensures MadeAt(p, max, after, l, j, tid, next) {
      assert MadeAt(p, max, table, l, j, tid, level);
      if l < |p| && j < Width(p, max, l) {
        SlotsDiffer(p, max, l, j, level, g);
        if l == level { MasterOfGroup(p, max, l, j); }
      }
    }
    hide MadeAt;
  }

  lemma NextThread(p: seq<nat>, max: nat, table: seq<Node?>, tid: nat)
    requires Partial(p, max, table, tid, |p|)
    ensures Partial(p, max, table, tid + 1, 0)
  {
    var next := tid + 1;
    forall l: nat, j: nat ensures MadeAt(p, max, table, l, j, next, 0) {
      assert MadeAt(p, max, table, l, j, tid, |p|);
    }
    hide MadeAt;
  }

  lemma Complete(p: seq<nat>, max: nat, table: seq<Node?>, s: nat)
    requires Partial(p, max, table, max, 0) && s < |table|
    ensures table[s] != null
  {
    var l, j := SlotOf(p, max, |p|, s);
    assert MadeAt(p, max, table, l, j, max, 0);
    MasterOfGroup(p, max, l, j);
  }

  lemma Nothing(p: seq<nat>, max: nat, table: seq<Node?>)
    requires Chain(p, max) && |table| == Total(p, max) && forall s :: 0 <= s < |table| ==> table[s] == null
    ensures Partial(p, max, table, 0, 0)
  {
    forall l: nat, j: nat ensures MadeAt(p, max, table, l, j, 0, 0) {
      if l < |p| && j < Width(p, max, l) { SlotsDiffer(p, max, l, j, l, j); }
    }
  }

  /** A node as the first loop leaves it. */
  ghost predicate Blank(n: Node?, threshold: nat)
    reads n
  {
    n != null ==> n.threshold == threshold && n.parent == null
  }

  /** The levels of one thread in the first loop.  The running end of the last level counts only the
      levels the thread is first in, which are the lowest ones. */
  method CreateFor(p: seq<nat>, max: nat, threshold: nat, table: array<Node?>, tid: nat)
    requires Partial(p, max, table[..], tid, 0) && tid < max
    requires forall s :: 0 <= s < table.Length ==> Blank(table[s], threshold)
    modifies table
    ensures Partial(p, max, table[..], tid, |p|)
    ensures forall s :: 0 <= s < table.Length ==> Blank(table[s], threshold)
    ensures forall s :: 0 <= s < table.Length && old(table[s]) != null ==> table[s] == old(table[s])
    ensures forall s :: 0 <= s < table.Length && old(table[s]) == null ==> table[s] == null || fresh(table[s])
  {
    var lastEnd, level := 0, 0;
    assert Chain(p, max) && table.Length == Total(p, max);
    while level < |p|
      invariant level <= |p| && Partial(p, max, table[..], tid, level)
      invariant (forall k :: 0 <= k < level ==> tid % p[k] == 0) ==> lastEnd == Offset(p, max, level)
      invariant forall s :: 0 <= s < table.Length ==> Blank(table[s], threshold)
      invariant forall s :: 0 <= s < table.Length && old(table[s]) != null ==> table[s] == old(table[s])
      invariant forall s :: 0 <= s < table.Length && old(table[s]) == null ==> table[s] == null || fresh(table[s])
    {
      if tid % p[level] == 0 {
        forall k | 0 <= k < level ensures tid % p[k] == 0 { MasterBelow(p, max, k, level, tid); }
        var location := lastEnd + tid / p[level];
        lastEnd := lastEnd + max / p[level];
        var node := new Node(threshold);
        CreateAtLevel(p, max, table[..], tid, level, node);
        ghost var before := table[..];
        table[location] := node;
        assert table[..] == before[location := node];
      } else {
        SkipLevel(p, max, table[..], tid, level);
      }
      level := level + 1;
    }
  }

  /** The first loop of new_lock: every place in the table is written exactly once, each with a node of
      its own. */
  method CreateNodes(p: seq<nat>, max: nat, threshold: nat) returns (table: array<Node?>)
    requires Chain(p, max)
    ensures fresh(table) && table.Length == Total(p, max)
    ensures forall s :: 0 <= s < table.Length ==> table[s] != null && fresh(table[s]) && Blank(table[s], threshold)
    ensures forall s, t :: 0 <= s < t < table.Length ==> table[s] != table[t]
  {
    var total, level := 0, 0;
    while level < |p|
      invariant level <= |p| && total == Offset(p, max, level)
    {
      total := total + max / p[level];
      level := level + 1;
    }
    table := new Node?[total](_ => null);
    Nothing(p, max, table[..]);
    hide Chain, Total, Width, Group, Partial;
    var tid := 0;
    while tid < max
      invariant tid <= max && Partial(p, max, table[..], tid, 0) && table.Length == total
      invariant forall s :: 0 <= s < table.Length ==> Blank(table[s], threshold)
      invariant forall s :: 0 <= s < table.Length ==> table[s] == null || fresh(table[s])
      decreases max - tid
    {
      CreateFor(p, max, threshold, table, tid);
      NextThread(p, max, table[..], tid);
      tid := tid + 1;
    }
    forall s | 0 <= s < table.Length ensures table[s] != null { Complete(p, max, table[..], s); }
    DifferentNodes(p, max, table[..]);
  }

  lemma DifferentNodes(p: seq<nat>, max: nat, table: seq<Node?>)
    requires Partial(p, max, table, max, 0)
    requires forall s :: 0 <= s < |table| ==> table[s] != null
    ensures |table| == Total(p, max)
    ensures forall s, t :: 0 <= s < t < |table| ==> table[s] != table[t]
  {
  }

  // ---------------------------------------------------------------- parents and leaves

  /** The `j`-th node of level `l` points to the node of its group one level up if it is due by now. */
  ghost predicate ParentAt(p: seq<nat>, max: nat, nodes: seq<Node>, l: nat, j: nat, tid: nat, level: nat)
    requires Chain(p, max) && |nodes| == Total(p, max)
    reads nodes
  {
    l < |p| && j < Width(p, max, l) ==>
      && Slot(p, max, l, j) < |nodes|
      && (if l + 1 < |p| && Made(p, l, j, tid, level) then
            var up := Slot(p, max, l + 1, Group(p, l + 1, Master(p, l, j)));
            up < |nodes| && nodes[Slot(p, max, l, j)].parent == nodes[up]
          else nodes[Slot(p, max, l, j)].parent == null)
  }

  ghost predicate Linked(p: seq<nat>, max: nat, nodes: seq<Node>, tid: nat, level: nat)
    reads nodes
  {
    && Chain(p, max) && |nodes| == Total(p, max) && NoDuplicates(nodes)
    && (forall l: nat, j: nat :: ParentAt(p, max, nodes, l, j, tid, level))
  }

  lemma NothingLinked(p: seq<nat>, max: nat, nodes: seq<Node>)
    requires Chain(p, max) && |nodes| == Total(p, max) && NoDuplicates(nodes)
    requires forall s :: 0 <= s < |nodes| ==> nodes[s].parent == null
    ensures Linked(p, max, nodes, 0, 0)
  {
    forall l: nat, j: nat ensures ParentAt(p, max, nodes, l, j, 0, 0) {
      if l < |p| && j < Width(p, max, l) { SlotsDiffer(p, max, l, j, l, j); }
    }
  }

  lemma SkipParent(p: seq<nat>, max: nat, nodes: seq<Node>, tid: nat, level: nat)
    requires Linked(p, max, nodes, tid, level) && level < |p| && tid < max && tid % p[level] != 0
    ensures Linked(p, max, nodes, tid, level + 1)
  {
    var next := level + 1;
    forall l: nat, j: nat ensures ParentAt(p, max, nodes, l, j, tid, next) {
      assert ParentAt(p, max, nodes, l, j, tid, level);
      if l == level && j < Width(p, max, l) { MasterOfGroup(p, max, l, j); }
    }
    hide ParentAt;
  }

  lemma NextThreadLinks(p: seq<nat>, max: nat, nodes: seq<Node>, tid: nat)
    requires |p| >= 1 && Linked(p, max, nodes, tid, |p| - 1)
    ensures Linked(p, max, nodes, tid + 1, 0)
  {
    var next := tid + 1;
    forall l: nat, j: nat ensures ParentAt(p, max, nodes, l, j, next, 0) {
      assert ParentAt(p, max, nodes, l, j, tid, |p| - 1);
    }
    hide ParentAt;
  }

  /** Where the two places of a parent link are. */
  lemma LinkPlaces(p: seq<nat>, max: nat, level: nat, tid: nat)
    requires Chain(p, max) && level + 1 < |p| && tid < max && tid % p[level] == 0
    ensures var g, up := Group(p, level, tid), Group(p, level + 1, tid);
            && g < Width(p, max, level) && Master(p, level, g) == tid
            && Slot(p, max, level, g) < Total(p, max) && Slot(p, max, level + 1, up) < Total(p, max)
  {
    GroupBounds(p, max, level, tid);
    GroupBounds(p, max, level + 1, tid);
    SlotsDiffer(p, max, level, Group(p, level, tid), level, Group(p, level, tid));
    SlotsDiffer(p, max, level + 1, Group(p, level + 1, tid), level, Group(p, level, tid));
  }

  /** One assignment of a parent. */
  method LinkOne(p: seq<nat>, max: nat, nodes: seq<Node>, tid: nat, level: nat, lastEnd: nat) returns (end: nat)
    requires Linked(p, max, nodes, tid, level) && level + 1 < |p| && tid < max && tid % p[level] == 0
    requires lastEnd == Offset(p, max, level)
    modifies nodes
    ensures Linked(p, max, nodes, tid, level + 1) && end == Offset(p, max, level + 1)
  {
    LinkPlaces(p, max, level, tid);
    var location := lastEnd + tid / p[level];
    end := lastEnd + max / p[level];
    var parentLocation := end + tid / p[level + 1];
    nodes[location].parent := nodes[parentLocation];
    var next := level + 1;
    forall l: nat, j: nat ensures ParentAt(p, max, nodes, l, j, tid, next) {
      assert old(ParentAt(p, max, nodes, l, j, tid, level));
      if l < |p| && j < Width(p, max, l) {
        SlotsDiffer(p, max, l, j, level, Group(p, level, tid));
        if l == level { MasterOfGroup(p, max, l, j); }
      }
    }
  }

  /** The levels of one thread in the second loop of new_lock. */
  method LinkFor(p: seq<nat>, max: nat, nodes: seq<Node>, tid: nat)
    requires Linked(p, max, nodes, tid, 0) && tid < max
    modifies nodes
    ensures Linked(p, max, nodes, tid, |p| - 1)
  {
    var lastEnd, level := 0, 0;
    hide ParentAt;
    while level < |p| - 1
      invariant level <= |p| - 1 && Linked(p, max, nodes, tid, level)
      invariant (forall k :: 0 <= k < level ==> tid % p[k] == 0) ==> lastEnd == Offset(p, max, level)
    {
      if tid % p[level] == 0 {
        forall k | 0 <= k < level ensures tid % p[k] == 0 { MasterBelow(p, max, k, level, tid); }
        lastEnd := LinkOne(p, max, nodes, tid, level, lastEnd);
      } else {
        SkipParent(p, max, nodes, tid, level);
      }
      level := level + 1;
    }
  }

  /** On the way up from thread `t`'s leaf every link is in place once the thread's levels are done. */
  lemma PathLink(p: seq<nat>, max: nat, nodes: seq<Node>, t: nat, i: nat)
    requires |p| >= 1 && Linked(p, max, nodes, t, |p| - 1) && t < max && i < |p|
    ensures Slot(p, max, i, Group(p, i, t)) < |nodes|
    ensures var here := Slot(p, max, i, Group(p, i, t));
            if i + 1 < |p| then
              var up := Slot(p, max, i + 1, Group(p, i + 1, t));
              up < |nodes| && nodes[here].parent == nodes[up]
            else nodes[here].parent == null && here == |nodes| - 1
  {
    GroupBounds(p, max, i, t);
    assert ParentAt(p, max, nodes, i, Group(p, i, t), t, |p| - 1);
    if i + 1 < |p| { ParentGroup(p, max, i, t); }
    RootSlot(p, max);
  }

  /** Thread `t`'s leaf points to the node of its group of level 0, and to the root. */
  ghost predicate IsLeaf(p: seq<nat>, max: nat, nodes: seq<Node>, leaf: Leaf?, t: nat)
    requires Chain(p, max)
  {
    && leaf != null && Slot(p, max, 0, Group(p, 0, t)) < |nodes|
    && leaf.curNode == nodes[Slot(p, max, 0, Group(p, 0, t))] && leaf.rootNode == nodes[|nodes| - 1]
  }

  /** new_leaf: the walk from the leaf's node to the root passes exactly one node of each level. */
  method NewLeaf(p: seq<nat>, max: nat, nodes: seq<Node>, t: nat) returns (leaf: Leaf)
    requires |p| >= 1 && Linked(p, max, nodes, t, |p| - 1) && t < max
    ensures fresh(leaf) && IsLeaf(p, max, nodes, leaf, t)
  {
    PathLink(p, max, nodes, t, 0);
    var cur := nodes[t / p[0]];
    var tmp := cur;
    ghost var i := 0;
    hide ParentAt;
    while tmp.parent != null
      invariant i < |p| && Slot(p, max, i, Group(p, i, t)) < |nodes| && tmp == nodes[Slot(p, max, i, Group(p, i, t))]
      decreases |p| - i
    {
      PathLink(p, max, nodes, t, i);
      tmp := tmp.parent;
      i := i + 1;
    }
    PathLink(p, max, nodes, t, i);
    assert i == |p| - 1;
    leaf := new Leaf(cur, tmp);
  }

  /** The finished tree: every node below the root leads to the node of its group one level up. */
  ghost predicate IsTree(p: seq<nat>, max: nat, nodes: seq<Node>)
    reads nodes
  {
    Linked(p, max, nodes, max, 0)
  }

  method NodesOf(table: array<Node?>) returns (nodes: seq<Node>)
    requires forall s :: 0 <= s < table.Length ==> table[s] != null
    ensures |nodes| == table.Length && forall s :: 0 <= s < |nodes| ==> nodes[s] == table[s]
  {
    nodes := seq(table.Length, s requires 0 <= s < table.Length && table[s] != null reads table => table[s] as Node);
  }

  /** The second loop of new_lock: parents and leaves. */
  method SetupParents(p: seq<nat>, max: nat, nodes: seq<Node>) returns (leaves: array<Leaf?>)
    requires Linked(p, max, nodes, 0, 0)
    modifies nodes
    ensures fresh(leaves) && leaves.Length == max
    ensures IsTree(p, max, nodes) && forall t :: 0 <= t < max ==> IsLeaf(p, max, nodes, leaves[t], t)
  {
    assert |p| >= 1;
    hide ParentAt, Linked, IsLeaf, Total, Chain, Group, Slot, Offset;
    leaves := new Leaf?[max](_ => null);
    var tid := 0;
    while tid < max
      invariant tid <= max && Linked(p, max, nodes, tid, 0)
      invariant forall t :: 0 <= t < tid ==> IsLeaf(p, max, nodes, leaves[t], t)
    {
      LinkFor(p, max, nodes, tid);
      var leaf := NewLeaf(p, max, nodes, tid);
      NextThreadLinks(p, max, nodes, tid);
      leaves[tid] := leaf;
      tid := tid + 1;
    }
  }

  /** new_lock: creates the tree of the chain `p`, with a leaf for each thread. */
  method NewLock(p: seq<nat>, max: nat, threshold: nat) returns (leaves: array<Leaf?>, ghost nodes: seq<Node>)
    requires Chain(p, max)
    ensures fresh(leaves) && leaves.Length == max
    ensures IsTree(p, max, nodes)
            && (forall s :: 0 <= s < |nodes| ==> fresh(nodes[s]) && nodes[s].threshold == threshold)
    ensures forall t :: 0 <= t < max ==> IsLeaf(p, max, nodes, leaves[t], t)
  {
    var table := CreateNodes(p, max, threshold);
    var all := NodesOf(table);
    nodes := all;
    NothingLinked(p, max, all);
    hide Linked, IsTree, IsLeaf;
    leaves := SetupParents(p, max, all);
  }

  /** The parents in the finished tree are those the lock protocol climbs: `Hmcs.Anc` on the tree of `p`. */
  lemma TreeIsTheLocks(p: seq<nat>, max: nat, threshold: nat, nodes: seq<Node>, t: nat, i: nat)
    requires IsTree(p, max, nodes) && t < max && i < |p|
    ensures var c := TreeOf(p, max, threshold);
            var here := Slot(p, max, i, Hmcs.Anc(c, t, i).index);
            && here < |nodes|
            && (if i + 1 < |p| then
                  var up := Slot(p, max, i + 1, Hmcs.Anc(c, t, i + 1).index);
                  up < |nodes| && nodes[here].parent == nodes[up]
                else nodes[here].parent == null)
  {
    AncestorIsGroup(p, max, threshold, t, i);
    DivUnique(t, max, 0, t);
    if i + 1 < |p| { AncestorIsGroup(p, max, threshold, t, i + 1); }
    PathInTree(p, max, nodes, t, i);
  }

  lemma PathInTree(p: seq<nat>, max: nat, nodes: seq<Node>, t: nat, i: nat)
    requires IsTree(p, max, nodes) && t < max && i < |p|
    ensures var here := Slot(p, max, i, Group(p, i, t));
            && here < |nodes|
            && (if i + 1 < |p| then
                  var up := Slot(p, max, i + 1, Group(p, i + 1, t));
                  up < |nodes| && nodes[here].parent == nodes[up]
                else nodes[here].parent == null)
  {
    GroupBounds(p, max, i, t);
    assert ParentAt(p, max, nodes, i, Group(p, i, t), max, 0);
    if i + 1 < |p| { ParentGroup(p, max, i, t); }
  }

  // ---------------------------------------------------------------- teardown

  ghost predicate ListedAt(p: seq<nat>, max: nat, nodes: seq<Node>, list: seq<Node?>, l: nat, j: nat, tid: nat,
      level: nat)
    requires Chain(p, max) && |nodes| == Total(p, max)
  {
    l < |p| && j < Width(p, max, l) ==>
      Slot(p, max, l, j) < |nodes| && (nodes[Slot(p, max, l, j)] in list <==> Made(p, l, j, tid, level))
  }

  /** The list holds, once each, the nodes on the paths of the threads before `tid`, and those of `tid`'s
      path below `level`. */
  ghost predicate Gathered(p: seq<nat>, max: nat, nodes: seq<Node>, list: seq<Node?>, tid: nat, level: nat) {
    && Chain(p, max) && |nodes| == Total(p, max) && NoDuplicates(nodes)
    && NoDuplicates(list) && (forall n :: n in list ==> n in nodes)
    && (forall l: nat, j: nat :: ListedAt(p, max, nodes, list, l, j, tid, level))
  }

  /** The node of `tid`'s path at `level` is already listed exactly if an earlier thread passes it. */
  lemma AlreadyListed(p: seq<nat>, max: nat, nodes: seq<Node>, list: seq<Node?>, tid: nat, level: nat)
    requires Gathered(p, max, nodes, list, tid, level) && level < |p| && tid < max
    ensures Slot(p, max, level, Group(p, level, tid)) < |nodes|
    ensures var n := nodes[Slot(p, max, level, Group(p, level, tid))];
            && (n in list ==> Gathered(p, max, nodes, list, tid, level + 1))
            && (n !in list ==> Gathered(p, max, nodes, list + [n], tid, level + 1))
  {
    var g, next := Group(p, level, tid), level + 1;
    GroupBounds(p, max, level, tid);
    SlotsDiffer(p, max, level, g, level, g);
    var n := nodes[Slot(p, max, level, g)];
    assert ListedAt(p, max, nodes, list, level, g, tid, level);
    var after := if n in list then list else list + [n];
    forall l: nat, j: nat ensures ListedAt(p, max, nodes, after, l, j, tid, next) {
      assert ListedAt(p, max, nodes, list, l, j, tid, level);
      if l < |p| && j < Width(p, max, l) {
        SlotsDiffer(p, max, l, j, level, g);
        if l == level { MasterOfGroup(p, max, l, j); }
      }
    }
    hide ListedAt;
  }

  lemma NextThreadGathered(p: seq<nat>, max: nat, nodes: seq<Node>, list: seq<Node?>, tid: nat)
    requires Gathered(p, max, nodes, list, tid, |p|)
    ensures Gathered(p, max, nodes, list, tid + 1, 0)
  {
    var next := tid + 1;
    forall l: nat, j: nat ensures ListedAt(p, max, nodes, list, l, j, next, 0) {
      assert ListedAt(p, max, nodes, list, l, j, tid, |p|);
    }
    hide ListedAt;
  }

  lemma NothingGathered(p: seq<nat>, max: nat, nodes: seq<Node>)
    requires Chain(p, max) && |nodes| == Total(p, max) && NoDuplicates(nodes)
    ensures Gathered(p, max, nodes, [], 0, 0)
  {
    forall l: nat, j: nat ensures ListedAt(p, max, nodes, [], l, j, 0, 0) {
      if l < |p| && j < Width(p, max, l) { SlotsDiffer(p, max, l, j, l, j); }
    }
  }

  lemma {:induction false} FewerThan(xs: seq<Node?>, ys: set<Node?>)
    requires NoDuplicates(xs) && forall x :: x in xs ==> x in ys
    ensures |xs| <= |ys|
    ensures |xs| == |ys| ==> forall y :: y in ys ==> y in xs
  {
    if xs == [] {
    } else {
      var x, rest := xs[0], xs[1..];
      assert x !in rest && forall y :: y in xs <==> y == x || y in rest;
      FewerThan(rest, ys - {x});
    }
  }

  lemma AsSet(nodes: seq<Node>) returns (all: set<Node?>)
    requires NoDuplicates(nodes)
    ensures |all| == |nodes| && forall n :: n in all <==> n in nodes
  {
    all := {};
    var i := 0;
    while i < |nodes|
      invariant i <= |nodes| && |all| == i && forall n :: n in all <==> n in nodes[..i]
    {
      assert nodes[..i + 1] == nodes[..i] + [nodes[i]];
      all := all + {nodes[i]};
      i := i + 1;
    }
    assert nodes[..i] == nodes;
  }

  /** A list of different nodes is no longer than the tree. */
  lemma ListFits(p: seq<nat>, max: nat, nodes: seq<Node>, list: seq<Node?>, tid: nat, level: nat)
    requires Gathered(p, max, nodes, list, tid, level)
    ensures |list| <= Total(p, max)
  {
    var all := AsSet(nodes);
    FewerThan(list, all);
  }

  /** search_nodes_rec from `tid`'s node of `level` upwards.  `ok` is false if the assertion on the count
      of listed nodes fails. */
  method SearchNodes(node: Node?, list: array<Node?>, num: nat, max: nat,
      ghost p: seq<nat>, ghost nodes: seq<Node>, ghost tid: nat, ghost level: nat) returns (ok: bool, count: nat)
    requires IsTree(p, max, nodes) && tid < max && level <= |p|
    requires list.Length == 2 * max && num < 2 * max && Gathered(p, max, nodes, list[..num], tid, level)
    requires level < |p| ==> Slot(p, max, level, Group(p, level, tid)) < |nodes|
    requires node == if level < |p| then nodes[Slot(p, max, level, Group(p, level, tid))] else null
    modifies list
    ensures ok ==> count < 2 * max && Gathered(p, max, nodes, list[..count], tid, |p|)
    ensures !ok ==> 2 * max <= Total(p, max)
    decreases |p| - level
  {
    ok, count := true, num;
    if node != null {
      var i := 0;
      while i < num && node != list[i]
        invariant i <= num && node !in list[..i]
      {
        i := i + 1;
      }
      AlreadyListed(p, max, nodes, list[..num], tid, level);
      PathInTree(p, max, nodes, tid, level);
      if i == num {
        ghost var before := list[..num];
        list[num] := node;
        count := num + 1;
        assert list[..count] == before + [node];
        ok := count < 2 * max;
      } else {
        assert node in list[..num];
      }
      if ok {
        ok, count := SearchNodes(node.parent, list, count, max, p, nodes, tid, level + 1);
      } else {
        ListFits(p, max, nodes, list[..count], tid, level + 1);
      }
    }
  }

  /** free_lock gathers every tree node exactly once, and so frees each exactly once; its assertion holds
      exactly if the tree has fewer nodes than twice the number of threads. */
  method FreeLock(leaves: array<Leaf?>, max: nat, ghost p: seq<nat>, ghost nodes: seq<Node>)
      returns (ok: bool, freed: seq<Node?>)
    requires IsTree(p, max, nodes) && leaves.Length == max
    requires forall t :: 0 <= t < max ==> IsLeaf(p, max, nodes, leaves[t], t)
    ensures ok <==> Total(p, max) < 2 * max
    ensures ok ==> NoDuplicates(freed) && |freed| == |nodes| && forall n :: n in freed <==> n in nodes
  {
    var list := new Node?[2 * max](_ => null);
    var num: nat, tid: nat := 0, 0;
    ok, freed := true, [];
    assert Chain(p, max) && max >= 1;
    NothingGathered(p, max, nodes);
    assert list[..0] == [];
    hide Gathered, IsTree;
    while tid < max && ok
      invariant tid <= max && list.Length == 2 * max
                && (ok ==> num < 2 * max && Gathered(p, max, nodes, list[..num], tid, 0))
      invariant !ok ==> 2 * max <= Total(p, max)
      decreases max - tid, ok
    {
      assert IsLeaf(p, max, nodes, leaves[tid], tid);
      ok, num := SearchNodes(leaves[tid].curNode, list, num, max, p, nodes, tid, 0);
      if ok { NextThreadGathered(p, max, nodes, list[..num], tid); }
      tid := tid + 1;
    }
    if ok {
      freed := list[..num];
      AllGathered(p, max, nodes, freed);
    }
  }

  lemma AllGathered(p: seq<nat>, max: nat, nodes: seq<Node>, list: seq<Node?>)
    requires Gathered(p, max, nodes, list, max, 0)
    ensures NoDuplicates(list) && |list| == |nodes| == Total(p, max) && forall n :: n in list <==> n in nodes
  {
    forall n | n in nodes ensures n in list {
      var s :| 0 <= s < |nodes| && nodes[s] == n;
      var l, j := SlotOf(p, max, |p|, s);
      MasterOfGroup(p, max, l, j);
      assert ListedAt(p, max, nodes, list, l, j, max, 0);
    }
    var all := AsSet(nodes);
    FewerThan(list, all);
    var listed := set n | n in list;
    FewerThan(nodes, listed);
    SetOfList(list, listed);
  }

  lemma {:induction false} SetOfList(xs: seq<Node?>, ys: set<Node?>)
    requires forall y :: y in ys ==> y in xs
    ensures |ys| <= |xs|
  {
    if xs != [] { SetOfList(xs[1..], ys - {xs[0]}); }
  }
}
