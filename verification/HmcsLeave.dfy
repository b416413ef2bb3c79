/** The hierarchical lock: emptying a queue, and signalling a successor. */
module HmcsLeave {
  import opened Cells
  import opened Hmcs
  import opened HmcsQuiet
  import opened HmcsJoin

  // ---------------------------------------------------------------- leaving a queue

  /** The release found itself alone: the lock word goes back to null. */
  ghost predicate Empties(c: Tree, s: State, s': State, t: Thread) {
    && Pc(s, t).Rel? && Pc(s, t).rop.UnlockCas?
    && var a := Pc(s, t).site;
    && var h := HAt(c, t, a);
    && Lock(s, h) == Some(QAt(c, t, a))
    && Moves(s, s', t, Down(a))
    && SameStatus(s, s') && SameNext(s, s') && SameTook(s, s')
    && (forall x :: Lock(s', x) == if x == h then None else Lock(s, x))
    && (forall x :: Queue(s', x) == if x == h then [] else Queue(s, x))
    && (forall x :: Owner(s', x) == if x == h then None else Owner(s, x))
  }

  /** The node a release operates on is the head of its queue. */
  lemma ReleaserHeads(c: Tree, s: State, t: Thread)
    requires ValidTree(c) && Inv(c, s) && (Pc(s, t).Rel? || Pc(s, t).Climb?)
    ensures var a := if Pc(s, t).Climb? then Site(Pc(s, t).level, false) else Pc(s, t).site;
            && Fast(s, t) == a.fast
            && Holds(c, s, t, HAt(c, t, a)) && Owner(s, HAt(c, t, a)) == Some(t)
            && Queue(s, HAt(c, t, a)) != [] && Queue(s, HAt(c, t, a))[0] == QAt(c, t, a)
            && Home(c, s, QAt(c, t, a)) == HAt(c, t, a)
  {
    var a := if Pc(s, t).Climb? then Site(Pc(s, t).level, false) else Pc(s, t).site;
    assert LocalOk(c, s, t);
    assert OwnerOk(c, s, HAt(c, t, a), t);
    assert QueueOk(c, s, HAt(c, t, a));
  }

  lemma EmptyFrame(c: Tree, s: State, s': State, t: Thread, u: Thread)
    requires Inv(c, s) && Empties(c, s, s', t)
    ensures u != t ==> Fast(s', u) == Fast(s, u) && Top(c, s', u) == Top(c, s, u)
    ensures forall h :: Holds(c, s', t, h) <==> Holds(c, s, t, h) && h.level < Pc(s, t).site.level
    ensures !Fast(s', t)
  {
    assert LocalOk(c, s, t);
  }

  lemma EmptyOwner(c: Tree, s: State, s': State, t: Thread, h: HNode, u: Thread)
    requires ValidTree(c) && Inv(c, s) && Empties(c, s, s', t)
    ensures OwnerOk(c, s', h, u)
  {
    assert OwnerOk(c, s, h, u);
    EmptyFrame(c, s, s', t, u);
    ReleaserHeads(c, s, t);
  }

  lemma EmptyWaits(c: Tree, s: State, s': State, t: Thread, h: HNode, p: QNode, q: QNode)
    requires Inv(c, s) && Empties(c, s, s', t) && Waits(c, s, h, p, q)
    ensures Waits(c, s', h, p, q)
  {
    assert OwnerOk(c, s, HAt(c, t, Pc(s, t).site), t) && LocalOk(c, s, t);
  }

  lemma EmptyHome(c: Tree, s: State, s': State, t: Thread, h: HNode, q: QNode)
    requires ValidTree(c) && Inv(c, s) && Empties(c, s, s', t)
    requires q in Queue(s, h) && h != HAt(c, t, Pc(s, t).site)
    ensures Home(c, s', q) == h
  {
    assert QueueOk(c, s, h);
    ReleaserHeads(c, s, t);
    if q.Leaf? { EmptyFrame(c, s, s', t, q.t); }
  }

  lemma EmptyHead(c: Tree, s: State, s': State, t: Thread, h: HNode)
    requires ValidTree(c) && Inv(c, s) && Empties(c, s, s', t)
    requires Queue(s, h) != [] && h != HAt(c, t, Pc(s, t).site)
    ensures Owner(s, h).Some? && QOf(c, s', Owner(s, h).value, h) == Queue(s, h)[0]
  {
    HeadOf(c, s, h);
    ReleaserHeads(c, s, t);
    EmptyFrame(c, s, s', t, Owner(s, h).value);
  }

  lemma EmptyQueue(c: Tree, s: State, s': State, t: Thread, h: HNode)
    requires ValidTree(c) && Inv(c, s) && Empties(c, s, s', t)
    ensures QueueOk(c, s', h)
  {
    var qs := Queue(s, h);
    assert QueueOk(c, s, h);
    if h != HAt(c, t, Pc(s, t).site) {
      hide Inv, Waits, Home, QOf;
      forall q | q in qs ensures Home(c, s', q) == h { EmptyHome(c, s, s', t, h, q); }
      if qs != [] { EmptyHead(c, s, s', t, h); }
      forall i, j | 0 <= i < j < |qs| && j == i + 1 ensures Waits(c, s', h, qs[i], qs[j]) {
        EmptyWaits(c, s, s', t, h, qs[i], qs[j]);
      }
    }
  }

  lemma EmptyLocal(c: Tree, s: State, s': State, t: Thread, u: Thread)
    requires ValidTree(c) && Inv(c, s) && Empties(c, s, s', t)
    ensures LocalOk(c, s', u)
  {
    assert LocalOk(c, s, u) && LocalOk(c, s, t);
    ReleaserHeads(c, s, t);
    var h0 := HAt(c, t, Pc(s, t).site);
    assert QueueOk(c, s, h0);
    ActsAtSite(c, s, t);
    if Pc(s, u).Acq? { ActsAtSite(c, s, u); }
    assert |Queue(s, h0)| == 1;
  }

  lemma EmptyKeepsInv(c: Tree, s: State, s': State, t: Thread)
    requires ValidTree(c) && Inv(c, s) && Empties(c, s, s', t)
    ensures Inv(c, s')
  {
    forall u: Thread, j: nat ensures CountOk(c, s', u, j) { assert CountOk(c, s, u, j); }
    hide Inv, Empties, QueueOk, OwnerOk, LocalOk, CountOk;
    forall h: HNode, u: Thread ensures OwnerOk(c, s', h, u) { EmptyOwner(c, s, s', t, h, u); }
    forall h: HNode ensures QueueOk(c, s', h) { EmptyQueue(c, s, s', t, h); }
    forall u: Thread ensures LocalOk(c, s', u) { EmptyLocal(c, s, s', t, u); }
  }

  /** The site a releasing or climbing thread is at. */
  function ReleaseSite(s: State, t: Thread): Site
    requires Pc(s, t).Rel? || Pc(s, t).Climb?
  {
    if Pc(s, t).Climb? then Site(Pc(s, t).level, false) else Pc(s, t).site
  }

  /** `t` signals its successor `succ` at `h`, giving it every tree node `t` owns from there upwards. */
  ghost predicate Grants(c: Tree, s: State, s': State, t: Thread, w: Thread, succ: QNode, v: int) {
    && ((Pc(s, t).Rel? && Pc(s, t).rop == Handoff(succ) && v == ReleaseValue(c, Pc(s, t).site))
        || (Pc(s, t).Climb? && Pc(s, t).cop.Pass? && Pc(s, t).cop.succ == succ && v == Pc(s, t).cop.count + 1))
    && var a := ReleaseSite(s, t);
    && var h := HAt(c, t, a);
    && Actor(s, succ) == Some(w)
    && Moves(s, s', t, Down(a))
    && SameNext(s, s') && SameTook(s, s')
    && (forall x :: Status(s', x) == if x == succ then v else Status(s, x))
    && (forall x :: Lock(s', x) == Lock(s, x))
    && (Queue(s, h) != [] ==> forall x :: Queue(s', x) == if x == h then Queue(s, h)[1..] else Queue(s, x))
    && (forall x :: Owner(s', x) == if Owner(s, x) == Some(t) && h.level <= x.level then Some(w) else Owner(s, x))
  }

  /** The successor that a release found is the second in the queue, and is waiting there. */
  lemma SuccessorWaits(c: Tree, s: State, t: Thread, succ: QNode)
    requires ValidTree(c) && Inv(c, s)
    requires (Pc(s, t).Rel? && Pc(s, t).rop == Handoff(succ))
             || (Pc(s, t).Climb? && Pc(s, t).cop.Pass? && Pc(s, t).cop.succ == succ)
    ensures var h := HAt(c, t, ReleaseSite(s, t));
            && |Queue(s, h)| > 1 && Queue(s, h)[1] == succ
            && Queue(s, h)[0] == QAt(c, t, ReleaseSite(s, t))
            && Waits(c, s, h, Queue(s, h)[0], succ)
            && Actor(s, succ).Some? && Actor(s, succ).value != t
            && Pc(s, Actor(s, succ).value).op.Spin?
            && SiteOk(c, Pc(s, Actor(s, succ).value).site)
  {
    var h := HAt(c, t, ReleaseSite(s, t));
    ReleaserHeads(c, s, t);
    assert LocalOk(c, s, t);
    assert QueueOk(c, s, h);
    assert |Queue(s, h)| > 1 ==> Waits(c, s, h, Queue(s, h)[0], Queue(s, h)[1]);
    assert LocalOk(c, s, Actor(s, succ).value);
  }

  /** The count a pass leaves is again in [1, threshold]. */
  lemma PassCount(c: Tree, s: State, t: Thread)
    requires Inv(c, s) && Pc(s, t).Climb? && Pc(s, t).cop.Pass?
    ensures Counts(c, Pc(s, t).cop.count + 1) && !AtRoot(c, Site(Pc(s, t).level, false))
  {
    assert LocalOk(c, s, t) && CountOk(c, s, t, Pc(s, t).level);
  }

  lemma GrantFrame(c: Tree, s: State, s': State, t: Thread, w: Thread, succ: QNode, v: int, u: Thread)
    requires ValidTree(c) && Inv(c, s) && Grants(c, s, s', t, w, succ, v)
    ensures u != t ==> Fast(s', u) == Fast(s, u)
    ensures u != t && u != w ==> Top(c, s', u) == Top(c, s, u)
    ensures !Fast(s', t)
    ensures forall h :: Holds(c, s', t, h) <==> Holds(c, s, t, h) && h.level < ReleaseSite(s, t).level
  {
    assert LocalOk(c, s, t);
    if Pc(s, u).Acq? { ActsAtSite(c, s, u); }
    hide Inv, ValidTree, Anc;
    ReleaserFrame(c, s, s', t, w, succ, v);
    hide Holds, Down, LocalOk;
  }

  /** The releaser goes down to the level below. */
  lemma ReleaserFrame(c: Tree, s: State, s': State, t: Thread, w: Thread, succ: QNode, v: int)
    requires LocalOk(c, s, t) && Grants(c, s, s', t, w, succ, v)
    ensures !Fast(s', t)
    ensures forall h :: Holds(c, s', t, h) <==> Holds(c, s, t, h) && h.level < ReleaseSite(s, t).level
  {
    hide Anc;
  }

  /** What the signalled thread owns afterwards. */
  lemma GrantGains(c: Tree, s: State, s': State, t: Thread, w: Thread, succ: QNode, v: int, h: HNode)
    requires ValidTree(c) && Inv(c, s) && Grants(c, s, s', t, w, succ, v)
    ensures Holds(c, s', w, h) <==> Holds(c, s, w, h) || (ReleaseSite(s, t).level <= h.level && Holds(c, s, t, h))
    ensures Top(c, s', w) == Top(c, s, t) && Top(c, s, w) == ReleaseSite(s, t).level
  {
    SuccessorWaits(c, s, t, succ);
    ReleaserHeads(c, s, t);
    assert LocalOk(c, s, t);
    if Pc(s, t).Climb? { PassCount(c, s, t); }
    var i := ReleaseSite(s, t).level;
    assert Anc(c, w, i) == Anc(c, t, i);
    if i <= h.level { AncestorsMerge(c, t, w, i, h.level); }
    hide Inv;
  }

  lemma GrantOwner(c: Tree, s: State, s': State, t: Thread, w: Thread, succ: QNode, v: int, h: HNode, u: Thread)
    requires ValidTree(c) && Inv(c, s) && Grants(c, s, s', t, w, succ, v)
    ensures OwnerOk(c, s', h, u)
  {
    assert OwnerOk(c, s, h, u) && OwnerOk(c, s, h, t) && OwnerOk(c, s, h, w);
    GrantFrame(c, s, s', t, w, succ, v, u);
    GrantGains(c, s, s', t, w, succ, v, h);
    SuccessorWaits(c, s, t, succ);
  }

  lemma GrantWaits(c: Tree, s: State, s': State, t: Thread, w: Thread, succ: QNode, v: int, h: HNode, p: QNode,
      q: QNode)
    requires ValidTree(c) && Inv(c, s) && Grants(c, s, s', t, w, succ, v)
    requires Waits(c, s, h, p, q) && q != succ
    ensures Waits(c, s', h, p, q)
  {
  }

  lemma GrantHome(c: Tree, s: State, s': State, t: Thread, w: Thread, succ: QNode, v: int, h: HNode, q: QNode)
    requires ValidTree(c) && Inv(c, s) && Grants(c, s, s', t, w, succ, v) && q in Queue(s', h)
    ensures Home(c, s', q) == h
  {
    SuccessorWaits(c, s, t, succ);
    ReleaserHeads(c, s, t);
    assert QueueOk(c, s, h) && q in Queue(s, h);
    if q.Leaf? { GrantFrame(c, s, s', t, w, succ, v, q.t); }
  }

  /** At the node it was signalled at, the new owner heads the queue with the node it waited with. */
  lemma GrantHeadHere(c: Tree, s: State, s': State, t: Thread, w: Thread, succ: QNode, v: int)
    requires ValidTree(c) && Inv(c, s) && Grants(c, s, s', t, w, succ, v)
    ensures var h := HAt(c, t, ReleaseSite(s, t));
            Owner(s', h) == Some(w) && Queue(s', h) != [] && QOf(c, s', w, h) == Queue(s', h)[0]
  {
    SuccessorWaits(c, s, t, succ);
    ReleaserHeads(c, s, t);
    GrantFrame(c, s, s', t, w, succ, v, w);
    assert LocalOk(c, s, w);
    hide Inv, ValidTree;
  }

  /** A thread that owns a node above the one it releases came the slow way. */
  lemma SlowAbove(c: Tree, s: State, t: Thread, h: HNode)
    requires ValidTree(c) && Inv(c, s) && (Pc(s, t).Rel? || Pc(s, t).Climb?)
    requires Owner(s, h) == Some(t) && h.level > ReleaseSite(s, t).level
    ensures !Fast(s, t) && h.level < c.levels && !AtRoot(c, ReleaseSite(s, t))
  {
    assert OwnerOk(c, s, h, t) && LocalOk(c, s, t);
    hide Inv;
  }

  /** The successor waits on the same node, and below the root it came the slow way too. */
  lemma SuccessorPath(c: Tree, s: State, s': State, t: Thread, w: Thread, succ: QNode, v: int)
    requires ValidTree(c) && Inv(c, s) && Grants(c, s, s', t, w, succ, v)
    ensures Anc(c, w, ReleaseSite(s, t).level) == Anc(c, t, ReleaseSite(s, t).level)
    ensures !AtRoot(c, ReleaseSite(s, t)) ==> !Fast(s', w)
  {
    SuccessorWaits(c, s, t, succ);
    GrantFrame(c, s, s', t, w, succ, v, w);
    assert LocalOk(c, s, w);
    hide Inv, ValidTree;
  }

  /** What a grant does at a node above the release site. */
  lemma GrantAbove(c: Tree, s: State, s': State, t: Thread, w: Thread, succ: QNode, v: int, h: HNode)
    requires ValidTree(c) && Inv(c, s) && Grants(c, s, s', t, w, succ, v)
    requires Owner(s, h) == Some(t) && h.level > ReleaseSite(s, t).level
    ensures Owner(s', h) == Some(w) && Queue(s', h) == Queue(s, h) != [] && Queue(s, h)[0] == QOf(c, s, t, h)
  {
    ReleaserHeads(c, s, t);
    assert QueueOk(c, s, h);
    hide Inv, ValidTree;
  }

  /** At the nodes above, which come with it, the queue is still headed by the embedded node below. */
  lemma GrantHeadAbove(c: Tree, s: State, s': State, t: Thread, w: Thread, succ: QNode, v: int, h: HNode)
    requires ValidTree(c) && Inv(c, s) && Grants(c, s, s', t, w, succ, v)
    requires Owner(s, h) == Some(t) && h.level > ReleaseSite(s, t).level
    ensures Owner(s', h) == Some(w) && Queue(s', h) == Queue(s, h) != [] && QOf(c, s', w, h) == Queue(s', h)[0]
  {
    assert Pc(s, t).Rel? || Pc(s, t).Climb?;
    hide Inv, ValidTree, Grants, Fast, ReleaseSite;
    GrantAbove(c, s, s', t, w, succ, v, h);
    SlowAbove(c, s, t, h);
    SuccessorPath(c, s, s', t, w, succ, v);
    AncestorsMerge(c, t, w, ReleaseSite(s, t).level, h.level - 1);
    hide Anc;
  }

  lemma GrantHead(c: Tree, s: State, s': State, t: Thread, w: Thread, succ: QNode, v: int, h: HNode)
    requires ValidTree(c) && Inv(c, s) && Grants(c, s, s', t, w, succ, v) && Queue(s', h) != []
    ensures Owner(s', h).Some? && QOf(c, s', Owner(s', h).value, h) == Queue(s', h)[0]
  {
    var a := ReleaseSite(s, t);
    ReleaserHeads(c, s, t);
    if h == HAt(c, t, a) {
      hide Inv, Grants;
      GrantHeadHere(c, s, s', t, w, succ, v);
    } else {
      HeadOf(c, s, h);
      if Owner(s, h) == Some(t) && h.level > a.level {
        hide Inv, Grants;
        GrantHeadAbove(c, s, s', t, w, succ, v, h);
      } else {
        GrantFrame(c, s, s', t, w, succ, v, Owner(s, h).value);
        hide Inv, ValidTree;
      }
    }
  }

  /** A grant removes the releaser's node, at the release site, and no other. */
  lemma GrantQueues(c: Tree, s: State, s': State, t: Thread, w: Thread, succ: QNode, v: int, h: HNode)
    requires ValidTree(c) && Inv(c, s) && Grants(c, s, s', t, w, succ, v)
    ensures var here := HAt(c, t, ReleaseSite(s, t));
            && (if h == here then |Queue(s, h)| > 1 && Queue(s, h)[1] == succ && Queue(s', h) == Queue(s, h)[1..]
                else Queue(s', h) == Queue(s, h) && succ !in Queue(s, h))
            && Lock(s', h) == Lock(s, h)
  {
    var here := HAt(c, t, ReleaseSite(s, t));
    SuccessorWaits(c, s, t, succ);
    assert QueueOk(c, s, h) && QueueOk(c, s, here);
    hide Inv, ValidTree, Waits, Home, QOf, Owner;
    assert succ in Queue(s, here);
  }

  lemma GrantPairs(c: Tree, s: State, s': State, t: Thread, w: Thread, succ: QNode, v: int, h: HNode, i: nat, j: nat)
    requires ValidTree(c) && Inv(c, s) && Grants(c, s, s', t, w, succ, v)
    requires i < j < |Queue(s', h)| && j == i + 1
    ensures Waits(c, s', h, Queue(s', h)[i], Queue(s', h)[j])
  {
    assert QueueOk(c, s, h);
    hide Inv, ValidTree, Grants, Waits, Home, QOf, Lock, Owner, Next, HAt, ReleaseSite;
    GrantQueues(c, s, s', t, w, succ, v, h);
    var qs, qs' := Queue(s, h), Queue(s', h);
    var d := if qs' == qs then 0 else 1;
    assert qs'[i] == qs[i + d] && qs'[j] == qs[j + d] && qs[j + d] != succ;
    GrantWaits(c, s, s', t, w, succ, v, h, qs[i + d], qs[j + d]);
  }

  lemma GrantQueue(c: Tree, s: State, s': State, t: Thread, w: Thread, succ: QNode, v: int, h: HNode)
    requires ValidTree(c) && Inv(c, s) && Grants(c, s, s', t, w, succ, v)
    ensures QueueOk(c, s', h)
  {
    var qs, qs' := Queue(s, h), Queue(s', h);
    assert QueueOk(c, s, h);
    assert SameNext(s, s') && (Owner(s', h).None? <==> Owner(s, h).None?);
    hide Inv, ValidTree, Grants, Waits, Home, QOf, HAt, ReleaseSite;
    GrantQueues(c, s, s', t, w, succ, v, h);
    if qs != [] && qs' != [] { assert qs'[|qs'| - 1] == qs[|qs| - 1]; }
    forall q | q in qs' ensures Home(c, s', q) == h { GrantHome(c, s, s', t, w, succ, v, h, q); }
    if qs' != [] { GrantHead(c, s, s', t, w, succ, v, h); }
    forall i, j | 0 <= i < j < |qs'| && j == i + 1 ensures Waits(c, s', h, qs'[i], qs'[j]) {
      GrantPairs(c, s, s', t, w, succ, v, h, i, j);
    }
  }

  lemma GrantLocalSelf(c: Tree, s: State, s': State, t: Thread, w: Thread, succ: QNode, v: int)
    requires ValidTree(c) && Inv(c, s) && Grants(c, s, s', t, w, succ, v)
    ensures LocalOk(c, s', t)
  {
    assert LocalOk(c, s, t);
    hide Inv, ValidTree;
  }

  /** The signalled thread finds its status changed, and is no longer waiting. */
  lemma GrantLocalNew(c: Tree, s: State, s': State, t: Thread, w: Thread, succ: QNode, v: int)
    requires ValidTree(c) && Inv(c, s) && Grants(c, s, s', t, w, succ, v)
    ensures LocalOk(c, s', w)
  {
    assert LocalOk(c, s, w);
    hide Inv, ValidTree, Holds, Home, Anc, Down;
    SuccessorWaits(c, s, t, succ);
    if Pc(s, t).Climb? { PassCount(c, s, t); }
  }

  /** What a thread inside acquire relies on, it may go on relying on while its queue node stays as it is. */
  lemma AcqStaysLocal(c: Tree, s: State, s': State, u: Thread)
    requires LocalOk(c, s, u) && Pc(s, u).Acq? && Pc(s', u) == Pc(s, u) && Took(s', u) == Took(s, u)
    requires var q, h := QAt(c, u, Pc(s, u).site), HAt(c, u, Pc(s, u).site);
             Status(s', q) == Status(s, q) && Next(s', q) == Next(s, q) && (q in Queue(s, h) ==> q in Queue(s', h))
    ensures LocalOk(c, s', u)
  {
    hide QAt, HAt;
  }

  /** A third party inside acquire is not signalled, and stays in its queue. */
  lemma GrantLocalAcq(c: Tree, s: State, s': State, t: Thread, w: Thread, succ: QNode, v: int, u: Thread)
    requires ValidTree(c) && Inv(c, s) && Grants(c, s, s', t, w, succ, v) && u != t && u != w && Pc(s, u).Acq?
    ensures LocalOk(c, s', u)
  {
    assert LocalOk(c, s, u);
    hide Inv, ValidTree, Holds, Home, Anc, Down;
    SuccessorWaits(c, s, t, succ);
    ReleaserHeads(c, s, t);
    ActsAtSite(c, s, u);
    var qs := Queue(s, HAt(c, t, ReleaseSite(s, t)));
    assert forall q :: q in qs && q != qs[0] ==> q in qs[1..];
    ActsAtSite(c, s, t);
    hide Waits, QueueOk, LocalOk;
    AcqStaysLocal(c, s, s', u);
  }

  lemma GrantLocalOther(c: Tree, s: State, s': State, t: Thread, w: Thread, succ: QNode, v: int, u: Thread)
    requires ValidTree(c) && Inv(c, s) && Grants(c, s, s', t, w, succ, v) && u != t && u != w
    ensures LocalOk(c, s', u)
  {
    if Pc(s, u).Acq? {
      hide *;
      GrantLocalAcq(c, s, s', t, w, succ, v, u);
    } else {
      assert LocalOk(c, s, u);
      hide Inv, ValidTree, Holds, Home, Anc, Down, Waits;
      SuccessorWaits(c, s, t, succ);
      if Pc(s, u).Rel? || Pc(s, u).Climb? { ActsAtSite(c, s, u); }
      ActsAtSite(c, s, t);
    }
  }

  lemma GrantLocal(c: Tree, s: State, s': State, t: Thread, w: Thread, succ: QNode, v: int, u: Thread)
    requires ValidTree(c) && Inv(c, s) && Grants(c, s, s', t, w, succ, v)
    ensures LocalOk(c, s', u)
  {
    hide *;
    if u == t {
      GrantLocalSelf(c, s, s', t, w, succ, v);
    } else if u == w {
      GrantLocalNew(c, s, s', t, w, succ, v);
    } else {
      GrantLocalOther(c, s, s', t, w, succ, v, u);
    }
  }

  lemma GrantCountSelf(c: Tree, s: State, s': State, t: Thread, w: Thread, succ: QNode, v: int, j: nat)
    requires ValidTree(c) && Inv(c, s) && Grants(c, s, s', t, w, succ, v)
    ensures CountOk(c, s', t, j)
  {
    hide Inv, ValidTree;
  }

  /** The counts of third parties are in queue nodes that are not signalled. */
  lemma GrantCountOther(c: Tree, s: State, s': State, t: Thread, w: Thread, succ: QNode, v: int, u: Thread, j: nat)
    requires ValidTree(c) && Inv(c, s) && Grants(c, s, s', t, w, succ, v) && u != t && u != w
    ensures CountOk(c, s', u, j)
  {
    assert CountOk(c, s, u, j);
    if (Pc(s, u).Acq? && !Pc(s, u).site.fast && j < Pc(s, u).site.level) || (Counted(c, s, u) && j + 1 < c.levels) {
      CountActor(c, s, u, j);
    }
    if Pc(s, u).Acq? { ActsAtSite(c, s, u); }
    hide Inv, ValidTree, Holds, Home, Down;
  }

  /** The signalled thread starts from 1 below the release site, has its new count there, and takes the
      releaser's counts over above. */
  lemma GrantCountNew(c: Tree, s: State, s': State, t: Thread, w: Thread, succ: QNode, v: int, j: nat)
    requires ValidTree(c) && Inv(c, s) && Grants(c, s, s', t, w, succ, v)
    ensures CountOk(c, s', w, j)
  {
    var a := ReleaseSite(s, t);
    assert CountOk(c, s, w, j) && CountOk(c, s, t, j) && LocalOk(c, s, t);
    hide Inv, ValidTree, Holds, Home, Down, QueueOk;
    SuccessorWaits(c, s, t, succ);
    if Pc(s, t).Climb? { PassCount(c, s, t); }
    if !Pc(s, w).site.fast && j < Pc(s, w).site.level { CountActor(c, s, w, j); }
    if a.level < j { AncestorsMerge(c, t, w, a.level, j - 1); }
  }

  lemma GrantCount(c: Tree, s: State, s': State, t: Thread, w: Thread, succ: QNode, v: int, u: Thread, j: nat)
    requires ValidTree(c) && Inv(c, s) && Grants(c, s, s', t, w, succ, v)
    ensures CountOk(c, s', u, j)
  {
    hide *;
    if u == t {
      GrantCountSelf(c, s, s', t, w, succ, v, j);
    } else if u == w {
      GrantCountNew(c, s, s', t, w, succ, v, j);
    } else {
      GrantCountOther(c, s, s', t, w, succ, v, u, j);
    }
  }

  lemma GrantKeepsInv(c: Tree, s: State, s': State, t: Thread, w: Thread, succ: QNode, v: int)
    requires ValidTree(c) && Inv(c, s) && Grants(c, s, s', t, w, succ, v)
    ensures Inv(c, s')
  {
    hide Grants, QueueOk, OwnerOk, LocalOk, CountOk;
    forall h: HNode, u: Thread ensures OwnerOk(c, s', h, u) { GrantOwner(c, s, s', t, w, succ, v, h, u); }
    forall h: HNode ensures QueueOk(c, s', h) { GrantQueue(c, s, s', t, w, succ, v, h); }
    forall u: Thread ensures LocalOk(c, s', u) { GrantLocal(c, s, s', t, w, succ, v, u); }
    forall u: Thread, j: nat ensures CountOk(c, s', u, j) { GrantCount(c, s, s', t, w, succ, v, u, j); }
  }
}
