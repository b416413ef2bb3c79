/**
 The wake-up of the skip queue of zm_wskip.c, run without interference: a forward pass that reverses
 links, and a backward pass that recycles the nodes passed.
 */
module Wskip {
  import opened ScanSpec

  const WAIT := 0
  const WAKE := 1
  const SKIP := 2
  const RECYCLE := 3
  const CHECK := 4

  class QNode {
    var status: int
    var next: QNode?

    constructor ()
      ensures status == RECYCLE && next == null
    {
      status, next := RECYCLE, null;
    }
  }

  ghost function Follower(q: seq<QNode>, i: int): QNode? {
    if 0 <= i < |q| then q[i] else null
  }

  /** The `i`-th node points to the one behind it. */
  ghost predicate LinkedAt(q: seq<QNode>, i: nat)
    reads q
  {
    i < |q| ==> q[i].next == Follower(q, i + 1)
  }

  /** The `i`-th node points to the one before it: the link has been reversed. */
  ghost predicate ReversedAt(q: seq<QNode>, i: nat)
    reads q
  {
    i < |q| ==> q[i].next == Follower(q, i - 1)
  }

  ghost function Statuses(q: seq<QNode>): (st: seq<int>)
    reads q
    ensures |st| == |q| && forall i :: 0 <= i < |q| ==> st[i] == q[i].status
  {
    seq(|q|, i requires 0 <= i < |q| reads q => q[i].status)
  }

  /** A queue from its holder on: linked in order, everyone behind the holder waiting or skipped. */
  ghost predicate Queued(q: seq<QNode>)
    reads q
  {
    && q != [] && NoDuplicates(q) && q[0].status == WAKE
    && (forall i: nat :: LinkedAt(q, i))
    && (forall i :: 1 <= i < |q| ==> q[i].status == WAIT || q[i].status == SKIP)
  }

  /** The place of the first waiting node from `i` on, or the length of the queue. */
  function FirstWaiting(st: seq<int>, i: nat): (k: nat)
    requires i <= |st|
    ensures i <= k <= |st|
    ensures forall j :: i <= j < k ==> st[j] != WAIT
    ensures k < |st| ==> st[k] == WAIT
    decreases |st| - i
  {
    if i == |st| || st[i] == WAIT then i else FirstWaiting(st, i + 1)
  }

  class Lock {
    var lock: QNode?

    constructor ()
      ensures lock == null
    {
      lock := null;
    }

    /** The forward pass: up to the node before the first waiting one, which it returns as `here`, every
        link is reversed. */
    method Forward(node: QNode, ghost q: seq<QNode>, ghost k: nat) returns (here: QNode, pred: QNode?, next: QNode?)
      requires q != [] && node == q[0] && NoDuplicates(q) && (forall i: nat :: LinkedAt(q, i))
      requires k == FirstWaiting(Statuses(q), 1)
      modifies q
      ensures here == q[k - 1] && pred == Follower(q, k - 2) && next == Follower(q, k)
      ensures forall i: nat :: i < k - 1 ==> ReversedAt(q, i)
      ensures forall i: nat :: i >= k - 1 ==> LinkedAt(q, i)
      ensures forall j :: k < j < |q| ==> q[j].status == old(q[j].status)
      ensures k < |q| ==> q[k].status == WAKE
      ensures forall j :: k <= j < |q| ==> q[j].next == old(q[j].next)
    {
      ghost var st, i := Statuses(q), 0;
      assert LinkedAt(q, 0);
      here, pred, next := node, null, node.next;
      hide LinkedAt, ReversedAt;
      while next != null && next.status != WAIT
        invariant i < k && here == q[i] && next == Follower(q, i + 1) && pred == Follower(q, i - 1)
        invariant forall j: nat :: j < i ==> ReversedAt(q, j)
        invariant forall j: nat :: j >= i ==> LinkedAt(q, j)
        invariant forall j :: i < j < |q| ==> q[j].status == st[j] && q[j].next == old(q[j].next)
        decreases |q| - i
      {
        var after := PassNode(here, pred, next, q, i);
        pred, here, next, i := here, next, after, i + 1;
      }
      if next != null { SetStatus(next, WAKE, q); }
    }

    /** One node of the forward pass. */
    method PassNode(here: QNode, pred: QNode?, next: QNode, ghost q: seq<QNode>, ghost i: nat) returns (after: QNode?)
      requires i + 1 < |q| && NoDuplicates(q) && here == q[i] && next == q[i + 1] && pred == Follower(q, i - 1)
      requires forall j: nat :: j < i ==> ReversedAt(q, j)
      requires forall j: nat :: j >= i ==> LinkedAt(q, j)
      modifies here, next
      ensures forall j: nat :: j < i + 1 ==> ReversedAt(q, j)
      ensures forall j: nat :: j >= i + 1 ==> LinkedAt(q, j)
      ensures forall j :: i + 1 < j < |q| ==> q[j].status == old(q[j].status) && q[j].next == old(q[j].next)
      ensures after == Follower(q, i + 2)
    {
      next.status := CHECK;
      here.next := pred;
      after := next.next;
      forall j: nat | j < i + 1 ensures ReversedAt(q, j) { assert j < i ==> old(ReversedAt(q, j)); }
      forall j: nat | j >= i + 1 ensures LinkedAt(q, j) { assert old(LinkedAt(q, j)); }
      assert LinkedAt(q, i + 1);
    }

    /** A store to a node's status moves no link. */
    method SetStatus(node: QNode, to: int, ghost q: seq<QNode>)
      modifies node`status
      ensures node.status == to
      ensures forall j :: 0 <= j < |q| && q[j] != node ==> q[j].status == old(q[j].status)
      ensures forall j :: 0 <= j < |q| ==> q[j].next == old(q[j].next)
      ensures forall j: nat :: LinkedAt(q, j) == old(LinkedAt(q, j)) && ReversedAt(q, j) == old(ReversedAt(q, j))
    {
      node.status := to;
    }

    /** The backward pass: follows the reversed links and makes every node passed recyclable. */
    method Backward(here: QNode, pred: QNode?, ghost q: seq<QNode>, ghost k: nat)
      requires 1 <= k <= |q| && NoDuplicates(q) && here == q[k - 1] && pred == Follower(q, k - 2)
      requires forall j: nat :: j < k - 1 ==> ReversedAt(q, j)
      modifies set j | 0 <= j < k :: q[j]`status
      ensures forall j :: 0 <= j < k ==> q[j].status == RECYCLE
      ensures forall j :: k <= j < |q| ==> q[j].status == old(q[j].status)
      ensures forall j :: 0 <= j < |q| ==> q[j].next == old(q[j].next)
      ensures forall j: nat :: LinkedAt(q, j) == old(LinkedAt(q, j)) && ReversedAt(q, j) == old(ReversedAt(q, j))
    {
      SetStatus(here, RECYCLE, q);
      var rev := pred;
      ghost var i := k - 1;
      while rev != null
        invariant 0 <= i < k && rev == Follower(q, i - 1)
        invariant forall j :: i <= j < k ==> q[j].status == RECYCLE
        invariant forall j :: k <= j < |q| ==> q[j].status == old(q[j].status)
        invariant forall j: nat :: j < k - 1 ==> ReversedAt(q, j)
        invariant forall j: nat :: LinkedAt(q, j) == old(LinkedAt(q, j)) && ReversedAt(q, j) == old(ReversedAt(q, j))
        decreases i
      {
        assert ReversedAt(q, i - 1);
        SetStatus(rev, RECYCLE, q);
        rev := rev.next;
        i := i - 1;
      }
    }

    /** wake.  A node that is not in status WAKE is left alone.  Otherwise the caller owns the head of `q`:
        it and the skipped nodes right behind it become recyclable; the first waiting node is woken and
        heads what is left of the queue, or the lock word is cleared if there is none.  The rest of the
        queue stays as it was. */
    method Wake(node: QNode, ghost q: seq<QNode>)
      requires node.status == WAKE ==> Queued(q) && node == q[0] && lock == q[|q| - 1]
      modifies this, q
      ensures old(node.status) != WAKE ==> lock == old(lock) && forall n :: n in q ==> unchanged(n)
      ensures old(node.status) == WAKE ==>
              var k := FirstWaiting(old(Statuses(q)), 1);
              && (forall j :: 0 <= j < k ==> q[j].status == RECYCLE)
              && (k < |q| ==> Queued(q[k..]) && lock == old(lock))
              && (k == |q| ==> lock == null)
              && (forall j :: k < j < |q| ==> q[j].status == old(q[j].status) && q[j].next == old(q[j].next))
              && node.next == null
    {
      if node.status != WAKE { return; }
      ghost var k := FirstWaiting(Statuses(q), 1);
      StartOfQueue(q, Statuses(q));
      hide Queued, LinkedAt, FirstWaiting, NoDuplicates;
      var here, next := Traverse(node, q, k);
      if next != null {
        CutFront(node, q, k);
        RestQueued(q, k);
      } else if lock == here {
        lock := null;
      }
    }

    /** Both passes, from the head to the node before the first waiting one, `here`. */
    method Traverse(node: QNode, ghost q: seq<QNode>, ghost k: nat) returns (here: QNode, next: QNode?)
      requires q != [] && node == q[0] && NoDuplicates(q) && (forall i: nat :: LinkedAt(q, i))
      requires k == FirstWaiting(Statuses(q), 1)
      modifies q
      ensures here == q[k - 1] && next == Follower(q, k)
      ensures forall j :: 0 <= j < k ==> q[j].status == RECYCLE
      ensures k < |q| ==> q[k].status == WAKE
      ensures forall j :: k < j < |q| ==> q[j].status == old(q[j].status)
      ensures forall j :: k <= j < |q| ==> q[j].next == old(q[j].next)
      ensures forall j: nat :: j >= k ==> LinkedAt(q, j)
      ensures k == |q| ==> node.next == null
    {
      hide LinkedAt, ReversedAt, FirstWaiting, NoDuplicates;
      ghost var st := Statuses(q);
      assert forall j :: 1 <= j < |q| ==> q[j] != node by { DifferFromHead(q); }
      SetStatus(node, RECYCLE, q);
      SameTail(st, Statuses(q), 1);
      var pred;
      here, pred, next := Forward(node, q, k);
      Backward(here, pred, q, k);
      if k == |q| { HeadHasNone(q, k); }
    }

    /** The last store: the former holder no longer points into the queue. */
    method CutFront(node: QNode, ghost q: seq<QNode>, ghost k: nat)
      requires 1 <= k <= |q| && NoDuplicates(q) && node == q[0] && forall j: nat :: j >= k ==> LinkedAt(q, j)
      modifies node`next
      ensures node.next == null
      ensures forall j: nat :: j >= k ==> LinkedAt(q, j)
      ensures forall j :: 1 <= j < |q| ==> q[j].next == old(q[j].next)
    {
      node.next := null;
      forall j: nat | j >= k ensures LinkedAt(q, j) { assert old(LinkedAt(q, j)); }
    }
  }

  lemma StartOfQueue(q: seq<QNode>, st: seq<int>)
    requires Queued(q) && st == Statuses(q)
    ensures q != [] && NoDuplicates(q)
    ensures forall j :: 1 <= j < |q| ==> st[j] == WAIT || st[j] == SKIP
    ensures forall i: nat :: LinkedAt(q, i)
  {
  }

  lemma DifferFromHead(q: seq<QNode>)
    requires NoDuplicates(q)
    ensures forall j :: 1 <= j < |q| ==> q[j] != q[0]
  {
  }

  /** The link of the head was reversed to nothing, or there was none. */
  lemma HeadHasNone(q: seq<QNode>, k: nat)
    requires q != [] && k == |q| && (k > 1 ==> ReversedAt(q, 0)) && (k == 1 ==> LinkedAt(q, 0))
    ensures q[0].next == null
  {
  }

  lemma RestQueued(q: seq<QNode>, k: nat)
    requires 1 <= k < |q| && NoDuplicates(q) && q[k].status == WAKE
    requires forall j: nat :: j >= k ==> LinkedAt(q, j)
    requires forall j :: k < j < |q| ==> q[j].status == WAIT || q[j].status == SKIP
    ensures Queued(q[k..])
  {
    forall i: nat ensures LinkedAt(q[k..], i) { assert LinkedAt(q, k + i); }
  }

  lemma {:induction false} SameTail(st: seq<int>, su: seq<int>, i: nat)
    requires |st| == |su| && i <= |st| && forall j :: i <= j < |st| ==> st[j] == su[j]
    ensures FirstWaiting(st, i) == FirstWaiting(su, i)
    decreases |st| - i
  {
    if i < |st| { SameTail(st, su, i + 1); }
  }
}
