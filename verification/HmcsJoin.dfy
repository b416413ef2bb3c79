/** The hierarchical lock: swapping into a queue, taking a free tree node, linking behind a predecessor. */
module HmcsJoin {
  import opened Cells
  import opened Hmcs
  import opened HmcsQuiet

  // ---------------------------------------------------------------- joining a queue

  ghost predicate SameStatus(s: State, s': State) { forall q :: Status(s', q) == Status(s, q) }
  ghost predicate SameNext(s: State, s': State) { forall q :: Next(s', q) == Next(s, q) }
  ghost predicate SameTook(s: State, s': State) { forall u: Thread :: Took(s', u) == Took(s, u) }
  ghost predicate SameOwner(s: State, s': State) { forall h :: Owner(s', h) == Owner(s, h) }

  /** SWAP found a predecessor. */
  ghost predicate Appends(c: Tree, s: State, s': State, t: Thread) {
    && Pc(s, t).Acq? && Pc(s, t).op.Swap?
    && var a := Pc(s, t).site;
    && var q, h := QAt(c, t, a), HAt(c, t, a);
    && Lock(s, h).Some?
    && Moves(s, s', t, Acq(Link(Lock(s, h).value), a))
    && SameStatus(s, s') && SameNext(s, s') && SameTook(s, s') && SameOwner(s, s')
    && (forall x :: Lock(s', x) == if x == h then Some(q) else Lock(s, x))
    && (forall x :: Queue(s', x) == if x == h then Queue(s, h) + [q] else Queue(s, x))
  }

  lemma AppendFrame(c: Tree, s: State, s': State, t: Thread, u: Thread)
    requires Inv(c, s) && Appends(c, s, s', t)
    ensures Fast(s', u) == Fast(s, u) && Top(c, s', u) == Top(c, s, u)
  {
  }

  lemma AppendWaits(c: Tree, s: State, s': State, t: Thread, h: HNode, p: QNode, q: QNode)
    requires Inv(c, s) && Appends(c, s, s', t) && Waits(c, s, h, p, q)
    ensures Waits(c, s', h, p, q)
  {
  }

  lemma AppendHome(c: Tree, s: State, s': State, t: Thread, h: HNode, q: QNode)
    requires ValidTree(c) && Inv(c, s) && Appends(c, s, s', t) && q in Queue(s', h)
    ensures Home(c, s', q) == h
  {
    assert QueueOk(c, s, h);
    if q == QAt(c, t, Pc(s, t).site) { HomeAt(c, s, t); }
    NotQueued(c, s, t, h);
    if q.Leaf? { AppendFrame(c, s, s', t, q.t); }
    hide Inv, ValidTree, LocalOk, Waits;
  }

  lemma AppendPair(c: Tree, s: State, s': State, t: Thread, h: HNode, i: nat, j: nat)
    requires ValidTree(c) && Inv(c, s) && Appends(c, s, s', t) && j == i + 1 < |Queue(s', h)|
    ensures Waits(c, s', h, Queue(s', h)[i], Queue(s', h)[j])
  {
    var qs := Queue(s, h);
    assert QueueOk(c, s, h) && LocalOk(c, s, t);
    ActsAtSite(c, s, t);
    if j < |qs| { AppendWaits(c, s, s', t, h, qs[i], qs[j]); }
    hide Inv, ValidTree, Home;
  }

  lemma AppendQueue(c: Tree, s: State, s': State, t: Thread, h: HNode)
    requires ValidTree(c) && Inv(c, s) && Appends(c, s, s', t)
    ensures QueueOk(c, s', h)
  {
    var a := Pc(s, t).site;
    var q := QAt(c, t, a);
    var qs, qs' := Queue(s, h), Queue(s', h);
    assert QueueOk(c, s, h);
    assert LocalOk(c, s, t);
    NotQueued(c, s, t, h);
    ActsAtSite(c, s, t);
    hide Inv, ValidTree, Home;
    forall x | x in qs' ensures Home(c, s', x) == h { AppendHome(c, s, s', t, h, x); }
    if qs != [] {
      HeadOf(c, s, h);
      AppendFrame(c, s, s', t, Owner(s, h).value);
    }
    forall i, j | 0 <= i < j < |qs'| && j == i + 1 ensures Waits(c, s', h, qs'[i], qs'[j]) {
      AppendPair(c, s, s', t, h, i, j);
    }
    hide Waits, LocalOk;
  }

  lemma AppendLocal(c: Tree, s: State, s': State, t: Thread, u: Thread)
    requires Inv(c, s) && Appends(c, s, s', t)
    ensures LocalOk(c, s', u)
  {
    assert LocalOk(c, s, u);
    ActsAtSite(c, s, t);
    if Pc(s, u).Acq? || Pc(s, u).Rel? { ActsAtSite(c, s, u); }
  }

  lemma AppendKeepsInv(c: Tree, s: State, s': State, t: Thread)
    requires ValidTree(c) && Inv(c, s) && Appends(c, s, s', t)
    ensures Inv(c, s')
  {
    forall h: HNode, u: Thread ensures OwnerOk(c, s', h, u) {
      assert OwnerOk(c, s, h, u);
      AppendFrame(c, s, s', t, u);
    }
    forall u: Thread, j: nat ensures CountOk(c, s', u, j) { assert CountOk(c, s, u, j); }
    hide Inv, Appends, QueueOk, OwnerOk, LocalOk, CountOk;
    forall h: HNode ensures QueueOk(c, s', h) { AppendQueue(c, s, s', t, h); }
    forall u: Thread ensures LocalOk(c, s', u) { AppendLocal(c, s, s', t, u); }
  }

  /** SWAP or CAS found the lock word null. */
  ghost predicate Seizes(c: Tree, s: State, s': State, t: Thread) {
    && Pc(s, t).Acq? && (Pc(s, t).op.Swap? || Pc(s, t).op.TryCas?)
    && var a := Pc(s, t).site;
    && var q, h := QAt(c, t, a), HAt(c, t, a);
    && Lock(s, h).None?
    && Moves(s, s', t, if Pc(s, t).op.TryCas? then TryFlag else if AtRoot(c, a) then Critical else Acq(Start, a))
    && SameStatus(s, s') && SameNext(s, s') && SameTook(s, s')
    && (forall x :: Lock(s', x) == if x == h then Some(q) else Lock(s, x))
    && (forall x :: Queue(s', x) == if x == h then [q] else Queue(s, x))
    && (forall x :: Owner(s', x) == if x == h then Some(t) else Owner(s, x))
  }

  lemma SeizeFrame(c: Tree, s: State, s': State, t: Thread, u: Thread)
    requires Inv(c, s) && Seizes(c, s, s', t)
    ensures Fast(s', u) == Fast(s, u)
    ensures u != t ==> Top(c, s', u) == Top(c, s, u)
    ensures Top(c, s, t) <= Pc(s, t).site.level && Top(c, s', t) == Pc(s, t).site.level + 1
    ensures u != t ==> (forall h :: Holds(c, s', u, h) == Holds(c, s, u, h))
  {
    assert LocalOk(c, s, t);
  }

  lemma SeizeOwner(c: Tree, s: State, s': State, t: Thread, h: HNode, u: Thread)
    requires Inv(c, s) && Seizes(c, s, s', t)
    ensures OwnerOk(c, s', h, u)
  {
    assert LocalOk(c, s, t);
    assert OwnerOk(c, s, h, u);
    assert QueueOk(c, s, h);
    SeizeFrame(c, s, s', t, u);
  }

  lemma SeizeWaits(c: Tree, s: State, s': State, t: Thread, h: HNode, p: QNode, q: QNode)
    requires Inv(c, s) && Seizes(c, s, s', t) && Waits(c, s, h, p, q)
    ensures Waits(c, s', h, p, q)
  {
    assert QueueOk(c, s, HAt(c, t, Pc(s, t).site));
  }

  lemma SeizeQueue(c: Tree, s: State, s': State, t: Thread, h: HNode)
    requires ValidTree(c) && Inv(c, s) && Seizes(c, s, s', t)
    ensures QueueOk(c, s', h)
  {
    var qs, qs' := Queue(s, h), Queue(s', h);
    assert QueueOk(c, s, h);
    assert LocalOk(c, s, t);
    forall x | x in qs' ensures Home(c, s', x) == h {
      if x == QAt(c, t, Pc(s, t).site) { HomeAt(c, s, t); } else { assert x in qs; }
      if x.Leaf? { SeizeFrame(c, s, s', t, x.t); }
    }
    SeizeFrame(c, s, s', t, t);
    if qs != [] {
      HeadOf(c, s, h);
      SeizeFrame(c, s, s', t, Owner(s, h).value);
    }
    forall i, j | 0 <= i < j < |qs'| && j == i + 1 ensures Waits(c, s', h, qs'[i], qs'[j]) {
      SeizeWaits(c, s, s', t, h, qs[i], qs[j]);
    }
  }

  lemma SeizeLocal(c: Tree, s: State, s': State, t: Thread, u: Thread)
    requires Inv(c, s) && Seizes(c, s, s', t)
    ensures LocalOk(c, s', u)
  {
    assert LocalOk(c, s, u);
    assert QueueOk(c, s, HAt(c, t, Pc(s, t).site));
    ActsAtSite(c, s, t);
    if Pc(s, u).Acq? || Pc(s, u).Rel? { ActsAtSite(c, s, u); }
  }

  lemma SeizeCount(c: Tree, s: State, s': State, t: Thread, u: Thread, j: nat)
    requires ValidTree(c) && Inv(c, s) && Seizes(c, s, s', t)
    ensures CountOk(c, s', u, j)
  {
    assert CountOk(c, s, u, j);
    assert LocalOk(c, s, t);
  }

  lemma SeizeKeepsInv(c: Tree, s: State, s': State, t: Thread)
    requires ValidTree(c) && Inv(c, s) && Seizes(c, s, s', t)
    ensures Inv(c, s')
  {
    hide Seizes, QueueOk, OwnerOk, LocalOk, CountOk;
    forall h: HNode, u: Thread ensures OwnerOk(c, s', h, u) { SeizeOwner(c, s, s', t, h, u); }
    forall h: HNode ensures QueueOk(c, s', h) { SeizeQueue(c, s, s', t, h); }
    forall u: Thread ensures LocalOk(c, s', u) { SeizeLocal(c, s, s', t, u); }
    forall u: Thread, j: nat ensures CountOk(c, s', u, j) { SeizeCount(c, s, s', t, u, j); }
  }

  /** The waiting thread links itself behind its predecessor. */
  ghost predicate Links(c: Tree, s: State, s': State, t: Thread) {
    && Pc(s, t).Acq? && Pc(s, t).op.Link?
    && var a := Pc(s, t).site;
    && Moves(s, s', t, Acq(Spin, a))
    && SameQueues(s, s') && SameStatus(s, s') && SameTook(s, s')
    && (forall x :: Next(s', x) == if x == Pc(s, t).op.pred then Some(QAt(c, t, a)) else Next(s, x))
  }

  /** The link a thread owes is the one between its own node and the node right before it. */
  lemma LinkOwed(c: Tree, s: State, t: Thread)
    requires Inv(c, s) && Pc(s, t).Acq? && Pc(s, t).op.Link?
    ensures var q, h, p := QAt(c, t, Pc(s, t).site), HAt(c, t, Pc(s, t).site), Pc(s, t).op.pred;
            && Waits(c, s, h, p, q) && p in Queue(s, h)
            && forall i, j :: 0 <= i < j < |Queue(s, h)| && j == i + 1 ==>
                 (Queue(s, h)[i] == p <==> Queue(s, h)[j] == q)
    ensures Queue(s, HAt(c, t, Pc(s, t).site))[|Queue(s, HAt(c, t, Pc(s, t).site))| - 1] != Pc(s, t).op.pred
  {
    var q, h, p := QAt(c, t, Pc(s, t).site), HAt(c, t, Pc(s, t).site), Pc(s, t).op.pred;
    var qs := Queue(s, h);
    assert LocalOk(c, s, t);
    assert QueueOk(c, s, h);
    ActsAtSite(c, s, t);
    QueuedActor(c, s, h, q);
    var k :| 0 <= k < |qs| && qs[k] == q;
    if k == 0 {
      HeadOf(c, s, h);
    }
    assert k > 0 && Waits(c, s, h, qs[k - 1], qs[k]);
  }

  lemma LinkPairs(c: Tree, s: State, s': State, t: Thread, h: HNode, i: nat, j: nat)
    requires Inv(c, s) && Links(c, s, s', t) && i < j < |Queue(s, h)| && j == i + 1
    ensures Waits(c, s', h, Queue(s, h)[i], Queue(s, h)[j])
  {
    var qs, h0 := Queue(s, h), HAt(c, t, Pc(s, t).site);
    assert QueueOk(c, s, h) && QueueOk(c, s, h0);
    hide Inv, Holds;
    assert Waits(c, s, h, qs[i], qs[j]);
    LinkOwed(c, s, t);
    ActsAtSite(c, s, t);
    assert h != h0 ==> Pc(s, t).op.pred !in qs;
  }

  lemma LinkFrame(c: Tree, s: State, s': State, t: Thread, u: Thread)
    requires Links(c, s, s', t)
    ensures Fast(s', u) == Fast(s, u)
  {
  }

  lemma LinkHome(c: Tree, s: State, s': State, t: Thread, q: QNode)
    requires Links(c, s, s', t)
    ensures Home(c, s', q) == Home(c, s, q)
  {
    hide Links, Fast;
    if q.Leaf? { LinkFrame(c, s, s', t, q.t); }
  }

  lemma LinkQueue(c: Tree, s: State, s': State, t: Thread, h: HNode)
    requires Inv(c, s) && Links(c, s, s', t)
    ensures QueueOk(c, s', h)
  {
    var qs, h0, p := Queue(s, h), HAt(c, t, Pc(s, t).site), Pc(s, t).op.pred;
    assert QueueOk(c, s, h) && QueueOk(c, s, h0);
    hide Inv, Holds, Waits, Home, Fast;
    LinkOwed(c, s, t);
    assert h != h0 ==> p !in qs;
    assert qs != [] ==> qs[|qs| - 1] != p;
    if qs != [] {
      HeadOf(c, s, h);
      LinkFrame(c, s, s', t, Owner(s, h).value);
    }
    forall q | q in qs ensures Home(c, s', q) == h { LinkHome(c, s, s', t, q); }
    forall i, j | 0 <= i < j < |qs| && j == i + 1 ensures Waits(c, s', h, qs[i], qs[j]) {
      LinkPairs(c, s, s', t, h, i, j);
    }
  }

  lemma LinkLocal(c: Tree, s: State, s': State, t: Thread, u: Thread)
    requires Inv(c, s) && Links(c, s, s', t)
    ensures LocalOk(c, s', u)
  {
    assert LocalOk(c, s, u) && LocalOk(c, s, t);
    LinkOwed(c, s, t);
    if Pc(s, u).Acq? && (Pc(s, u).op.Swap? || Pc(s, u).op.TryCas?) {
      NotQueued(c, s, u, HAt(c, t, Pc(s, t).site));
    }
  }

  lemma LinkKeepsInv(c: Tree, s: State, s': State, t: Thread)
    requires ValidTree(c) && Inv(c, s) && Links(c, s, s', t)
    ensures Inv(c, s')
  {
    forall h: HNode, u: Thread ensures OwnerOk(c, s', h, u) {
      assert OwnerOk(c, s, h, u) && LocalOk(c, s, t);
    }
    forall u: Thread, j: nat ensures CountOk(c, s', u, j) { assert CountOk(c, s, u, j) && LocalOk(c, s, t); }
    hide Inv, Links, QueueOk, OwnerOk, LocalOk, CountOk;
    forall h: HNode ensures QueueOk(c, s', h) { LinkQueue(c, s, s', t, h); }
    forall u: Thread ensures LocalOk(c, s', u) { LinkLocal(c, s, s', t, u); }
  }
}
