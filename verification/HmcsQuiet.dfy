/** The hierarchical lock: what the invariant says about acting threads, and the instructions that change no queue. */
module HmcsQuiet {
  import opened Cells
  import opened Hmcs

  // ---------------------------------------------------------------- consequences

  /** A thread acts for its leaf's queue node and for the embedded node of every tree node it owns. */
  lemma ActorOf(c: Tree, s: State, t: Thread, a: Site)
    requires Inv(c, s)
    requires a.fast || a.level == 0 || Holds(c, s, t, Anc(c, t, a.level - 1))
    ensures Actor(s, QAt(c, t, a)) == Some(t)
  {
    if !a.fast && a.level > 0 {
      assert OwnerOk(c, s, Anc(c, t, a.level - 1), t);
    }
  }

  /** The queue node of a thread's current site is its own to use. */
  lemma ActsAtSite(c: Tree, s: State, t: Thread)
    requires Inv(c, s) && (Pc(s, t).Acq? || Pc(s, t).Rel? || Pc(s, t).Climb?)
    ensures var a := if Pc(s, t).Climb? then Site(Pc(s, t).level, false) else Pc(s, t).site;
            Actor(s, QAt(c, t, a)) == Some(t)
  {
    assert LocalOk(c, s, t);
    var a := if Pc(s, t).Climb? then Site(Pc(s, t).level, false) else Pc(s, t).site;
    ActorOf(c, s, t, a);
  }

  /** The head of a queue belongs to the owner of the tree node. */
  lemma HeadOf(c: Tree, s: State, h: HNode)
    requires Inv(c, s) && Queue(s, h) != []
    ensures Owner(s, h).Some? && Actor(s, Queue(s, h)[0]) == Owner(s, h)
    ensures Holds(c, s, Owner(s, h).value, h) && Queue(s, h)[0] == QOf(c, s, Owner(s, h).value, h)
  {
    assert QueueOk(c, s, h);
    var w := Owner(s, h).value;
    assert OwnerOk(c, s, h, w);
    ActorOf(c, s, w, Site(h.level, Fast(s, w)));
  }

  /** Everyone in a queue either owns the tree node or waits there. */
  lemma QueuedActor(c: Tree, s: State, h: HNode, q: QNode)
    requires Inv(c, s) && q in Queue(s, h)
    ensures Actor(s, q).Some?
    ensures var u := Actor(s, q).value;
            || (Holds(c, s, u, h) && Queue(s, h)[0] == q)
            || (Queue(s, h)[0] != q && Pc(s, u).Acq? && (Pc(s, u).op.Link? || Pc(s, u).op.Spin?)
                && HAt(c, u, Pc(s, u).site) == h && QAt(c, u, Pc(s, u).site) == q && Status(s, q) == WAIT)
  {
    HeadOf(c, s, h);
    assert QueueOk(c, s, h);
    var k :| 0 <= k < |Queue(s, h)| && Queue(s, h)[k] == q;
    assert k > 0 ==> Waits(c, s, h, Queue(s, h)[k - 1], Queue(s, h)[k]);
  }

  // ---------------------------------------------------------------- instructions that change no queue

  ghost predicate Moves(s: State, s': State, t: Thread, pc: PC) {
    forall u: Thread :: Pc(s', u) == if u == t then pc else Pc(s, u)
  }
  ghost predicate SameQueues(s: State, s': State) {
    && (forall h :: Lock(s', h) == Lock(s, h))
    && (forall h :: Queue(s', h) == Queue(s, h))
    && (forall h :: Owner(s', h) == Owner(s, h))
  }

  predicate Waiting(c: Tree, s: State, t: Thread) {
    Pc(s, t).Acq? && (Pc(s, t).op.Link? || (Pc(s, t).op.Spin? && Status(s, QAt(c, t, Pc(s, t).site)) == WAIT))
  }

  /** Only `t`'s own control state and the queue node `own` it acts for may change. */
  ghost predicate Quiet(c: Tree, s: State, s': State, t: Thread, own: QNode) {
    && Moves(s, s', t, Pc(s', t)) && SameQueues(s, s')
    && Actor(s, own) == Some(t)
    && (forall u: Thread :: u != t ==> Took(s', u) == Took(s, u))
    && (forall q :: q != own ==> Status(s', q) == Status(s, q))
    && (forall q :: q != own ==> Next(s', q) == Next(s, q))
    && !Waiting(c, s, t)
    && (forall h :: Holds(c, s', t, h) == Holds(c, s, t, h))
    && (Fast(s', t) == Fast(s, t) || forall h :: !Holds(c, s, t, h))
    && (Next(s', own) == Next(s, own) || forall h :: own !in Queue(s, h))
  }

  lemma QuietActor(c: Tree, s: State, s': State, t: Thread, own: QNode, u: Thread)
    requires Inv(c, s) && Quiet(c, s, s', t, own) && u != t
    ensures Fast(s', u) == Fast(s, u) && Top(c, s', u) == Top(c, s, u)
    ensures forall h :: Holds(c, s', u, h) == Holds(c, s, u, h)
  {
    if Pc(s, u).Acq? { ActsAtSite(c, s, u); }
  }

  lemma QuietOwner(c: Tree, s: State, s': State, t: Thread, own: QNode, h: HNode, u: Thread)
    requires Inv(c, s) && Quiet(c, s, s', t, own)
    ensures OwnerOk(c, s', h, u)
  {
    assert OwnerOk(c, s, h, u);
    if u != t { QuietActor(c, s, s', t, own, u); }
  }

  lemma QuietWaits(c: Tree, s: State, s': State, t: Thread, own: QNode, h: HNode, p: QNode, q: QNode)
    requires Inv(c, s) && Quiet(c, s, s', t, own)
    requires p in Queue(s, h) && Waits(c, s, h, p, q)
    ensures Waits(c, s', h, p, q)
  {
  }

  lemma QuietQueue(c: Tree, s: State, s': State, t: Thread, own: QNode, h: HNode)
    requires Inv(c, s) && Quiet(c, s, s', t, own)
    ensures QueueOk(c, s', h)
  {
    assert QueueOk(c, s, h);
    var qs := Queue(s, h);
    forall i, j | 0 <= i < j < |qs| && j == i + 1 ensures Waits(c, s', h, qs[i], qs[j]) {
      QuietWaits(c, s, s', t, own, h, qs[i], qs[j]);
    }
    forall q | q in qs ensures Home(c, s', q) == h {
      QueuedActor(c, s, h, q);
      if q.Leaf? && q.t != t { QuietActor(c, s, s', t, own, q.t); }
    }
    if qs != [] {
      HeadOf(c, s, h);
      var w := Owner(s, h).value;
      if w != t { QuietActor(c, s, s', t, own, w); }
    }
  }

  lemma QuietLocal(c: Tree, s: State, s': State, t: Thread, own: QNode, u: Thread)
    requires Inv(c, s) && Quiet(c, s, s', t, own) && u != t
    ensures LocalOk(c, s', u)
  {
    assert LocalOk(c, s, u);
    if Pc(s, u).Acq? || Pc(s, u).Rel? || Pc(s, u).Climb? { ActsAtSite(c, s, u); }
  }

  /** The counts that matter to a thread are in queue nodes it acts for. */
  lemma CountActor(c: Tree, s: State, u: Thread, j: nat)
    requires ValidTree(c) && Inv(c, s)
    requires (Pc(s, u).Acq? && !Pc(s, u).site.fast && j < Pc(s, u).site.level) || (Counted(c, s, u) && j + 1 < c.levels)
    ensures Actor(s, QAt(c, u, Site(j, false))) == Some(u)
  {
    assert LocalOk(c, s, u);
    assert !Fast(s, u) && j <= Top(c, s, u);
    if j > 0 { assert Holds(c, s, u, Anc(c, u, j - 1)); }
    ActorOf(c, s, u, Site(j, false));
  }

  lemma QuietCount(c: Tree, s: State, s': State, t: Thread, own: QNode, u: Thread, j: nat)
    requires ValidTree(c) && Inv(c, s) && Quiet(c, s, s', t, own) && u != t
    ensures CountOk(c, s', u, j)
  {
    assert CountOk(c, s, u, j);
    if Pc(s, u).Acq? { ActsAtSite(c, s, u); }
    assert Counted(c, s', u) == Counted(c, s, u);
    if (Pc(s, u).Acq? && !Pc(s, u).site.fast && j < Pc(s, u).site.level) || (Counted(c, s, u) && j + 1 < c.levels) {
      CountActor(c, s, u, j);
    }
  }

  lemma QuietKeepsInv(c: Tree, s: State, s': State, t: Thread, own: QNode)
    requires ValidTree(c) && Inv(c, s) && Quiet(c, s, s', t, own)
    requires LocalOk(c, s', t) && forall j: nat :: CountOk(c, s', t, j)
    ensures Inv(c, s')
  {
    hide Quiet, QueueOk, OwnerOk, LocalOk, CountOk;
    forall h: HNode, u: Thread ensures OwnerOk(c, s', h, u) { QuietOwner(c, s, s', t, own, h, u); }
    forall h: HNode ensures QueueOk(c, s', h) { QuietQueue(c, s, s', t, own, h); }
    forall u: Thread ensures LocalOk(c, s', u) { if u != t { QuietLocal(c, s, s', t, own, u); } }
    forall u: Thread, j: nat ensures CountOk(c, s', u, j) { if u != t { QuietCount(c, s, s', t, own, u, j); } }
  }

  /** Before its swap a queue node is in no queue: embedded nodes are re-initialised only then. */
  lemma NotQueued(c: Tree, s: State, t: Thread, h: HNode)
    requires Inv(c, s) && Pc(s, t).Acq?
    requires !Pc(s, t).op.Link? && !Pc(s, t).op.Spin? && !Pc(s, t).op.Start?
    ensures QAt(c, t, Pc(s, t).site) !in Queue(s, h)
  {
    var q := QAt(c, t, Pc(s, t).site);
    ActsAtSite(c, s, t);
    assert LocalOk(c, s, t);
    if q in Queue(s, h) {
      QueuedActor(c, s, h, q);
      HeadOf(c, s, h);
    }
  }

  /** A site's queue node is for the site's tree node and no other. */
  lemma HomeAt(c: Tree, s: State, t: Thread)
    requires ValidTree(c) && Inv(c, s) && Pc(s, t).Acq?
    ensures Home(c, s, QAt(c, t, Pc(s, t).site)) == HAt(c, t, Pc(s, t).site)
  {
    assert LocalOk(c, s, t);
  }

  /** Between calls, and on the way into or out of one, an instruction touches no queue and no count. */
  lemma IdleSideQuiet(c: Tree, s: State, t: Thread, try: bool)
    requires ValidTree(c)
    requires Pc(s, t).Idle? || Pc(s, t).PeekLeaf? || Pc(s, t).PeekRoot? || Pc(s, t).SetFast? || Pc(s, t).ClearFast?
    ensures var s' := Step(c, s, t, try);
            Quiet(c, s, s', t, Leaf(t)) && forall j: nat :: CountOk(c, s', t, j)
  {
    hide AcqStep, ClimbStep, RelStep, Anc;
    match Pc(s, t)
    case Idle => return;
    case PeekLeaf(_) => return;
    case PeekRoot(_) => return;
    case SetFast => return;
    case ClearFast => return;
  }

  lemma IdleSideLocal(c: Tree, s: State, t: Thread, try: bool)
    requires ValidTree(c) && LocalOk(c, s, t)
    requires Pc(s, t).Idle? || Pc(s, t).PeekLeaf? || Pc(s, t).PeekRoot? || Pc(s, t).SetFast? || Pc(s, t).ClearFast?
    ensures LocalOk(c, Step(c, s, t, try), t)
  {
    hide AcqStep, ClimbStep, RelStep, Anc;
    match Pc(s, t)
    case Idle => return;
    case PeekLeaf(_) => return;
    case PeekRoot(_) => return;
    case SetFast => return;
    case ClearFast => return;
  }

  lemma IdleSideKeepsInv(c: Tree, s: State, t: Thread, try: bool)
    requires ValidTree(c) && Inv(c, s)
    requires Pc(s, t).Idle? || Pc(s, t).PeekLeaf? || Pc(s, t).PeekRoot? || Pc(s, t).SetFast? || Pc(s, t).ClearFast?
    ensures Inv(c, Step(c, s, t, try))
  {
    assert LocalOk(c, s, t);
    hide Inv, Quiet, LocalOk, CountOk, Step;
    IdleSideQuiet(c, s, t, try);
    IdleSideLocal(c, s, t, try);
    QuietKeepsInv(c, s, Step(c, s, t, try), t, Leaf(t));
  }

  lemma HeldSideKeepsInv(c: Tree, s: State, t: Thread, try: bool)
    requires ValidTree(c) && Inv(c, s)
    requires Pc(s, t).TryFlag? || Pc(s, t).Critical? || Pc(s, t).ReadFlag?
    ensures Inv(c, Step(c, s, t, try))
  {
    var s' := Step(c, s, t, try);
    assert LocalOk(c, s, t);
    forall j: nat ensures CountOk(c, s', t, j) { assert CountOk(c, s, t, j); }
    hide Inv;
    QuietKeepsInv(c, s, s', t, Leaf(t));
  }

  /** Looking for a successor below the root changes nothing but the thread's own control state. */
  lemma ClimbProbes(c: Tree, s: State, t: Thread, try: bool)
    requires c.levels >= 1 && Pc(s, t).Climb? && !Pc(s, t).cop.Pass?
    ensures var s', i, q := Step(c, s, t, try), Pc(s, t).level, QAt(c, t, Site(Pc(s, t).level, false));
            var pc := Pc(s', t);
            && s' == Goto(s, t, pc)
            && (|| (pc == ReleaseEntry(c, i + 1))
                || (pc == Climb(ReadSucc(Status(s, q)), i) && Status(s, q) != c.threshold)
                || (Pc(s, t).cop.ReadSucc? && Next(s, q).Some?
                    && pc == Climb(Pass(Pc(s, t).cop.count, Next(s, q).value), i)))
  {
    hide AcqStep, RelStep, Grant, QAt, HAt, ReleaseEntry;
    match Pc(s, t).cop
    case ReadCount => return;
    case ReadSucc(_) => return;
  }

  lemma ClimbKeepsInv(c: Tree, s: State, t: Thread, try: bool)
    requires ValidTree(c) && Inv(c, s) && Pc(s, t).Climb? && !Pc(s, t).cop.Pass?
    ensures Inv(c, Step(c, s, t, try))
  {
    var s' := Step(c, s, t, try);
    ClimbProbes(c, s, t, try);
    hide Step, ClimbStep;
    assert LocalOk(c, s, t);
    assert LocalOk(c, s', t);
    forall j: nat ensures CountOk(c, s', t, j) { assert CountOk(c, s, t, j); }
    ActsAtSite(c, s, t);
    hide Inv;
    QuietKeepsInv(c, s, s', t, QAt(c, t, Site(Pc(s, t).level, false)));
  }

  /** Looking for a successor in a full release changes nothing but the thread's own control state. */
  lemma ReleaseProbes(c: Tree, s: State, t: Thread, try: bool)
    requires c.levels >= 1 && Pc(s, t).Rel? && !Pc(s, t).rop.Handoff?
    requires Pc(s, t).rop.UnlockCas? ==> Lock(s, HAt(c, t, Pc(s, t).site)) != Some(QAt(c, t, Pc(s, t).site))
    ensures var s', a := Step(c, s, t, try), Pc(s, t).site;
            var q, pc := QAt(c, t, a), Pc(s', t);
            && (s' == s || s' == Goto(s, t, pc))
            && pc.Rel? && pc.site == a
            && (pc == Pc(s, t) || pc.rop.UnlockCas?
                || (pc.rop.UnlockSpin? && Lock(s, HAt(c, t, a)) != Some(q))
                || (Next(s, q).Some? && pc.rop == Handoff(Next(s, q).value)))
  {
    hide AcqStep, ClimbStep, Grant, QAt, HAt;
    match Pc(s, t).rop
    case Unlock => return;
    case UnlockCas => return;
    case UnlockSpin => return;
  }

  /** An instruction that only moves the thread on, within the tree nodes it owns. */
  lemma MoveIsQuiet(c: Tree, s: State, s': State, t: Thread, own: QNode)
    requires Actor(s, own) == Some(t) && !Waiting(c, s, t) && s' == Goto(s, t, Pc(s', t))
    requires Fast(s', t) == Fast(s, t) && Top(c, s', t) == Top(c, s, t)
    ensures Quiet(c, s, s', t, own)
  {
    hide Fast, Top, Anc;
  }

  /** What the thread may rely on after such a probe, which is no count. */
  lemma ProbeLocal(c: Tree, s: State, s': State, t: Thread)
    requires LocalOk(c, s, t) && Pc(s, t).Rel? && Pc(s', t).Rel? && s' == Goto(s, t, Pc(s', t))
    requires var a, pc := Pc(s, t).site, Pc(s', t);
             && pc.site == a
             && (pc == Pc(s, t) || pc.rop.UnlockCas?
                 || (pc.rop.UnlockSpin? && Lock(s, HAt(c, t, a)) != Some(QAt(c, t, a)))
                 || (Next(s, QAt(c, t, a)).Some? && pc.rop == Handoff(Next(s, QAt(c, t, a)).value)))
    ensures LocalOk(c, s', t) && Fast(s', t) == Fast(s, t) && Top(c, s', t) == Top(c, s, t)
    ensures forall j: nat :: CountOk(c, s', t, j)
  {
    hide QAt, HAt;
  }

  lemma ProbeKeepsInv(c: Tree, s: State, t: Thread, try: bool)
    requires ValidTree(c) && Inv(c, s) && Pc(s, t).Rel? && !Pc(s, t).rop.Handoff?
    requires Pc(s, t).rop.UnlockCas? ==> Lock(s, HAt(c, t, Pc(s, t).site)) != Some(QAt(c, t, Pc(s, t).site))
    ensures Inv(c, Step(c, s, t, try))
  {
    assert LocalOk(c, s, t) && c.levels >= 1;
    ActsAtSite(c, s, t);
    hide Inv, ValidTree, Step, LocalOk, Quiet, CountOk, Fast, Top;
    ReleaseProbes(c, s, t, try);
    var s' := Step(c, s, t, try);
    if s' != s {
      ProbeLocal(c, s, s', t);
      MoveIsQuiet(c, s, s', t, QAt(c, t, Pc(s, t).site));
      QuietKeepsInv(c, s, s', t, QAt(c, t, Pc(s, t).site));
    }
  }

  lemma ReuseKeepsInv(c: Tree, s: State, t: Thread, try: bool)
    requires ValidTree(c) && Inv(c, s) && Pc(s, t).Acq?
    requires Pc(s, t).op.ReuseStatus? || Pc(s, t).op.ReuseNext?
    ensures Inv(c, Step(c, s, t, try))
  {
    var s' := Step(c, s, t, try);
    var q := QAt(c, t, Pc(s, t).site);
    assert LocalOk(c, s, t);
    ActsAtSite(c, s, t);
    forall h ensures q !in Queue(s, h) { NotQueued(c, s, t, h); }
    forall j: nat ensures CountOk(c, s', t, j) { assert CountOk(c, s, t, j); }
    hide Inv;
    QuietKeepsInv(c, s, s', t, q);
  }

  lemma StartKeepsInv(c: Tree, s: State, t: Thread, try: bool)
    requires ValidTree(c) && Inv(c, s) && Pc(s, t).Acq? && Pc(s, t).op.Start?
    ensures Inv(c, Step(c, s, t, try))
  {
    var s' := Step(c, s, t, try);
    var q := QAt(c, t, Pc(s, t).site);
    assert LocalOk(c, s, t);
    ActsAtSite(c, s, t);
    forall j: nat ensures CountOk(c, s', t, j) { assert CountOk(c, s, t, j); }
    hide Inv;
    QuietKeepsInv(c, s, s', t, q);
  }

  /** A thread that sees itself woken, or the lock taken, leaves its spin or its tryacq. */
  lemma SpinLeaves(c: Tree, s: State, t: Thread, try: bool)
    requires ValidTree(c) && LocalOk(c, s, t) && Pc(s, t).Acq?
    requires (Pc(s, t).op.Spin? && Status(s, QAt(c, t, Pc(s, t).site)) != WAIT)
             || (Pc(s, t).op.TryCas? && Lock(s, HAt(c, t, Pc(s, t).site)).Some?)
    ensures var s' := Step(c, s, t, try);
            var q := QAt(c, t, Pc(s, t).site);
            && s' == Goto(s, t, Pc(s', t))
            && (Pc(s', t).Acq? ==> Pc(s', t) == Acq(Start, Pc(s, t).site) && Status(s, q) == ACQUIRE_PARENT)
            && (!Pc(s', t).Acq? ==> Pc(s', t).Critical? || Pc(s', t).Idle?)
            && LocalOk(c, s', t)
  {
    hide QAt, HAt, ClimbStep, RelStep, Seize;
    match Pc(s, t).op
    case Spin => return;
    case TryCas => return;
  }

  lemma SpinKeepsInv(c: Tree, s: State, t: Thread, try: bool)
    requires ValidTree(c) && Inv(c, s) && Pc(s, t).Acq?
    requires (Pc(s, t).op.Spin? && Status(s, QAt(c, t, Pc(s, t).site)) != WAIT)
             || (Pc(s, t).op.TryCas? && Lock(s, HAt(c, t, Pc(s, t).site)).Some?)
    ensures Inv(c, Step(c, s, t, try))
  {
    var s' := Step(c, s, t, try);
    var q := QAt(c, t, Pc(s, t).site);
    assert LocalOk(c, s, t);
    SpinLeaves(c, s, t, try);
    hide Step;
    ActsAtSite(c, s, t);
    forall j: nat ensures CountOk(c, s', t, j) { assert CountOk(c, s, t, j); }
    hide Inv, CountOk;
    QuietKeepsInv(c, s, s', t, q);
  }
}
