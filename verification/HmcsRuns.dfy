/** The hierarchical lock over every run: mutual exclusion, ownership of embedded nodes, no lost hand-off. */
module HmcsRuns {
  import opened Cells
  import opened Hmcs
  import opened HmcsQuiet
  import opened HmcsJoin
  import opened HmcsLeave

  // ---------------------------------------------------------------- every instruction

  lemma SwapSeizes(c: Tree, s: State, t: Thread, try: bool)
    requires c.levels >= 1 && Pc(s, t).Acq? && Pc(s, t).op.Swap? && Lock(s, HAt(c, t, Pc(s, t).site)).None?
    ensures Seizes(c, s, Step(c, s, t, try), t)
  {
    hide RelStep, ClimbStep, QAt, HAt, AtRoot;
  }

  lemma SwapAppends(c: Tree, s: State, t: Thread, try: bool)
    requires c.levels >= 1 && Pc(s, t).Acq? && Pc(s, t).op.Swap? && Lock(s, HAt(c, t, Pc(s, t).site)).Some?
    ensures Appends(c, s, Step(c, s, t, try), t)
  {
    hide RelStep, ClimbStep, Seize, QAt, HAt, AtRoot;
  }

  lemma SwapKeepsInv(c: Tree, s: State, t: Thread, try: bool)
    requires ValidTree(c) && Inv(c, s) && Pc(s, t).Acq? && Pc(s, t).op.Swap?
    ensures Inv(c, Step(c, s, t, try))
  {
    assert c.levels >= 1;
    hide Inv, ValidTree, Step, Seizes, Appends, HAt;
    var s' := Step(c, s, t, try);
    if Lock(s, HAt(c, t, Pc(s, t).site)).None? {
      SwapSeizes(c, s, t, try);
      SeizeKeepsInv(c, s, s', t);
    } else {
      SwapAppends(c, s, t, try);
      AppendKeepsInv(c, s, s', t);
    }
  }

  lemma TryCasKeepsInv(c: Tree, s: State, t: Thread, try: bool)
    requires ValidTree(c) && Inv(c, s) && Pc(s, t).Acq? && Pc(s, t).op.TryCas?
    ensures Inv(c, Step(c, s, t, try))
  {
    hide Inv;
    if Lock(s, HAt(c, t, Pc(s, t).site)).None? {
      SeizeKeepsInv(c, s, Step(c, s, t, try), t);
    } else {
      SpinKeepsInv(c, s, t, try);
    }
  }

  lemma AcqKeepsInv(c: Tree, s: State, t: Thread, try: bool)
    requires ValidTree(c) && Inv(c, s) && Pc(s, t).Acq?
    ensures Inv(c, Step(c, s, t, try))
  {
    hide Inv;
    match Pc(s, t).op
    case Swap => SwapKeepsInv(c, s, t, try);
    case TryCas => TryCasKeepsInv(c, s, t, try);
    case Link(_) => LinkKeepsInv(c, s, Step(c, s, t, try), t);
    case Start => StartKeepsInv(c, s, t, try);
    case Spin => if Status(s, QAt(c, t, Pc(s, t).site)) != WAIT { SpinKeepsInv(c, s, t, try); }
    case _ => ReuseKeepsInv(c, s, t, try);
  }

  lemma PassGrants(c: Tree, s: State, t: Thread, try: bool, w: Thread)
    requires c.levels >= 1 && Pc(s, t).Climb? && Pc(s, t).cop.Pass? && Actor(s, Pc(s, t).cop.succ) == Some(w)
    ensures Grants(c, s, Step(c, s, t, try), t, w, Pc(s, t).cop.succ, Pc(s, t).cop.count + 1)
  {
    hide AcqStep, RelStep, QAt, HAt, AtRoot, Down, ReleaseValue;
  }

  lemma PassKeepsInv(c: Tree, s: State, t: Thread, try: bool)
    requires ValidTree(c) && Inv(c, s) && Pc(s, t).Climb? && Pc(s, t).cop.Pass?
    ensures Inv(c, Step(c, s, t, try))
  {
    assert c.levels >= 1;
    var succ := Pc(s, t).cop.succ;
    SuccessorWaits(c, s, t, succ);
    hide Inv, ValidTree, Step, Grants, Waits;
    PassGrants(c, s, t, try, Actor(s, succ).value);
    GrantKeepsInv(c, s, Step(c, s, t, try), t, Actor(s, succ).value, succ, Pc(s, t).cop.count + 1);
  }

  lemma HandoffGrants(c: Tree, s: State, t: Thread, try: bool, w: Thread)
    requires c.levels >= 1 && Pc(s, t).Rel? && Pc(s, t).rop.Handoff? && Actor(s, Pc(s, t).rop.succ) == Some(w)
    ensures Grants(c, s, Step(c, s, t, try), t, w, Pc(s, t).rop.succ, ReleaseValue(c, Pc(s, t).site))
  {
    hide AcqStep, ClimbStep, QAt, HAt, AtRoot, Down, ReleaseValue;
  }

  lemma HandoffKeepsInv(c: Tree, s: State, t: Thread, try: bool)
    requires ValidTree(c) && Inv(c, s) && Pc(s, t).Rel? && Pc(s, t).rop.Handoff?
    ensures Inv(c, Step(c, s, t, try))
  {
    assert c.levels >= 1;
    hide Inv, ValidTree, Step, Grants, Waits;
    var succ := Pc(s, t).rop.succ;
    SuccessorWaits(c, s, t, succ);
    HandoffGrants(c, s, t, try, Actor(s, succ).value);
    GrantKeepsInv(c, s, Step(c, s, t, try), t, Actor(s, succ).value, succ, ReleaseValue(c, Pc(s, t).site));
  }

  lemma UnlockKeepsInv(c: Tree, s: State, t: Thread, try: bool)
    requires ValidTree(c) && Inv(c, s) && Pc(s, t).Rel? && !Pc(s, t).rop.Handoff?
    ensures Inv(c, Step(c, s, t, try))
  {
    hide Inv;
    if Pc(s, t).rop.UnlockCas? && Lock(s, HAt(c, t, Pc(s, t).site)) == Some(QAt(c, t, Pc(s, t).site)) {
      EmptyKeepsInv(c, s, Step(c, s, t, try), t);
    } else {
      ProbeKeepsInv(c, s, t, try);
    }
  }

  lemma StepKeepsInv(c: Tree, s: State, t: Thread, try: bool)
    requires ValidTree(c) && Inv(c, s)
    ensures Inv(c, Step(c, s, t, try))
  {
    hide Inv, Step, ValidTree;
    match Pc(s, t)
    case Acq(_, _) => AcqKeepsInv(c, s, t, try);
    case Climb(op, _) => if op.Pass? { PassKeepsInv(c, s, t, try); } else { ClimbKeepsInv(c, s, t, try); }
    case Rel(op, _) => if op.Handoff? { HandoffKeepsInv(c, s, t, try); } else { UnlockKeepsInv(c, s, t, try); }
    case TryFlag => HeldSideKeepsInv(c, s, t, try);
    case Critical => HeldSideKeepsInv(c, s, t, try);
    case ReadFlag => HeldSideKeepsInv(c, s, t, try);
    case _ => IdleSideKeepsInv(c, s, t, try);
  }

  // ---------------------------------------------------------------- every interleaving

  lemma {:induction false} RunKeepsInv(c: Tree, schedule: seq<Turn>)
    requires ValidTree(c)
    ensures Inv(c, Run(c, schedule))
  {
    if schedule != [] {
      var last := |schedule| - 1;
      RunKeepsInv(c, schedule[..last]);
      hide Inv, Step;
      StepKeepsInv(c, Run(c, schedule[..last]), schedule[last].t, schedule[last].try);
    }
  }

  lemma InsideOwnsRoot(c: Tree, s: State, t: Thread)
    requires ValidTree(c) && Inv(c, s) && Inside(Pc(s, t))
    ensures Owner(s, Root(c)) == Some(t)
  {
    assert OwnerOk(c, s, Root(c), t);
    assert Anc(c, t, c.levels - 1) == Root(c);
  }

  /** For every tree and every interleaving of slow, fast and try acquisitions and releases, at most
      one thread is in the critical section. */
  lemma MutualExclusion(c: Tree, schedule: seq<Turn>, t: Thread, u: Thread)
    requires ValidTree(c) && Inside(Pc(Run(c, schedule), t)) && Inside(Pc(Run(c, schedule), u))
    ensures t == u
  {
    RunKeepsInv(c, schedule);
    InsideOwnsRoot(c, Run(c, schedule), t);
    InsideOwnsRoot(c, Run(c, schedule), u);
  }

  /** The holder heads every queue on its path, or heads the root's queue with its own leaf node. */
  lemma HolderHeadsItsPath(c: Tree, schedule: seq<Turn>, t: Thread, i: nat)
    requires ValidTree(c) && Inside(Pc(Run(c, schedule), t)) && i < c.levels
    requires Fast(Run(c, schedule), t) ==> i + 1 == c.levels
    ensures var q := Queue(Run(c, schedule), Anc(c, t, i));
            q != [] && q[0] == (if i == 0 || Fast(Run(c, schedule), t) then Leaf(t) else Embedded(Anc(c, t, i - 1)))
  {
    RunKeepsInv(c, schedule);
    assert OwnerOk(c, Run(c, schedule), Anc(c, t, i), t);
    assert QueueOk(c, Run(c, schedule), Anc(c, t, i));
  }

  /** An embedded queue node is re-initialised and enqueued only by the owner of its tree node, at a
      moment when it is in no queue. */
  lemma EmbeddedNodeOwnership(c: Tree, schedule: seq<Turn>, t: Thread, h: HNode, g: HNode)
    requires ValidTree(c)
    requires var pc := Pc(Run(c, schedule), t);
             pc.Acq? && (pc.op.ReuseStatus? || pc.op.ReuseNext? || pc.op.Swap?) && QAt(c, t, pc.site) == Embedded(g)
    ensures Owner(Run(c, schedule), g) == Some(t) && Embedded(g) !in Queue(Run(c, schedule), h)
  {
    RunKeepsInv(c, schedule);
    ActsAtSite(c, Run(c, schedule), t);
    NotQueued(c, Run(c, schedule), t, h);
  }

  // ---------------------------------------------------------------- no lost hand-off

  /** The thread is inside a call or the critical section, and its next instruction is not the retry
      of a spin loop. */
  predicate Runnable(c: Tree, s: State, t: Thread)
    requires c.levels >= 1
  {
    Pc(s, t) != Idle && Step(c, s, t, false) != s
  }

  lemma AcquirerMoves(c: Tree, s: State, t: Thread)
    requires ValidTree(c) && Inv(c, s) && Pc(s, t).Acq? && !Waiting(c, s, t)
    ensures Runnable(c, s, t)
  {
    assert LocalOk(c, s, t);
    hide Inv, ValidTree, Seize, QAt, HAt, RelStep, ClimbStep;
    if Pc(s, t).op.Spin? {
      assert Pc(Step(c, s, t, false), t) != Pc(s, t);
    } else {
      hide LocalOk, Waiting, AtRoot;
      AcquirerLeaves(c, s, t);
    }
  }

  lemma AcquirerLeaves(c: Tree, s: State, t: Thread)
    requires c.levels >= 1 && Pc(s, t).Acq? && !Pc(s, t).op.Spin?
    ensures Pc(Step(c, s, t, false), t) != Pc(s, t)
  {
    hide Seize, QAt, HAt, RelStep, ClimbStep, AtRoot;
    match Pc(s, t).op
    case ReuseStatus(_) => return;
    case ReuseNext(_) => return;
    case Swap => return;
    case Start => return;
    case Link(_) => return;
    case TryCas => return;
  }

  lemma ReleaserMoves(c: Tree, s: State, t: Thread)
    requires c.levels >= 1 && (Pc(s, t).Rel? || Pc(s, t).Climb?)
    requires Pc(s, t).Rel? && Pc(s, t).rop.UnlockSpin? ==> Next(s, QAt(c, t, Pc(s, t).site)).Some?
    ensures Runnable(c, s, t)
  {
    hide Grant, QAt, HAt, AcqStep, AtRoot;
    if Pc(s, t).Rel? {
      hide ClimbStep;
      match Pc(s, t).rop
      case Unlock => assert Pc(Step(c, s, t, false), t) != Pc(s, t); return;
      case UnlockCas => assert Pc(Step(c, s, t, false), t) != Pc(s, t); return;
      case UnlockSpin => assert Pc(Step(c, s, t, false), t) != Pc(s, t); return;
      case Handoff(_) => assert Pc(Step(c, s, t, false), t) != Pc(s, t); return;
    } else {
      hide RelStep;
      assert Pc(Step(c, s, t, false), t) != Pc(s, t);
    }
  }

  lemma SideMoves(c: Tree, s: State, t: Thread)
    requires c.levels >= 1 && !Pc(s, t).Idle? && !Pc(s, t).Acq? && !Pc(s, t).Rel? && !Pc(s, t).Climb?
    ensures Runnable(c, s, t)
  {
    hide AcqStep, ClimbStep, RelStep;
    assert Pc(Step(c, s, t, false), t) != Pc(s, t);
  }

  lemma SpinsOnly(c: Tree, s: State, t: Thread)
    requires ValidTree(c) && Inv(c, s) && Pc(s, t) != Idle && !Runnable(c, s, t)
    ensures Waiting(c, s, t)
            || (Pc(s, t).Rel? && Pc(s, t).rop.UnlockSpin? && Next(s, QAt(c, t, Pc(s, t).site)).None?)
  {
    hide Inv;
    if Pc(s, t).Acq? {
      hide Step;
      if !Waiting(c, s, t) { AcquirerMoves(c, s, t); }
    } else if Pc(s, t).Rel? || Pc(s, t).Climb? {
      hide Step;
      if !(Pc(s, t).Rel? && Pc(s, t).rop.UnlockSpin? && Next(s, QAt(c, t, Pc(s, t).site)).None?) {
        ReleaserMoves(c, s, t);
      }
    } else {
      hide Step;
      SideMoves(c, s, t);
    }
  }

  /** From any waiting thread, the owner of the tree node it waits at leads to one that can move,
      possibly through waits at ever higher levels. */
  lemma {:induction false} WaitingLeadsUp(c: Tree, s: State, t: Thread) returns (u: Thread)
    requires ValidTree(c) && Inv(c, s) && Pc(s, t) != Idle
    ensures Runnable(c, s, u)
    decreases c.levels - Top(c, s, t)
  {
    if Runnable(c, s, t) { return t; }
    SpinsOnly(c, s, t);
    assert LocalOk(c, s, t);
    var h := HAt(c, t, Pc(s, t).site);
    assert QueueOk(c, s, h);
    if Waiting(c, s, t) {
      HeadOf(c, s, h);
      ActsAtSite(c, s, t);
      u := WaitingLeadsUp(c, s, Owner(s, h).value);
    } else {
      ReleaserHeads(c, s, t);
      assert Waits(c, s, h, Queue(s, h)[0], Queue(s, h)[1]);
      u := Actor(s, Queue(s, h)[1]).value;
    }
  }

  /** In every reachable state in which some thread is not idle, some thread has an instruction to
      execute that is not a spin retry. */
  lemma NoLostHandoff(c: Tree, schedule: seq<Turn>, t: Thread)
    requires ValidTree(c) && Pc(Run(c, schedule), t) != Idle
    ensures exists u: Thread :: Runnable(c, Run(c, schedule), u)
  {
    RunKeepsInv(c, schedule);
    var u := WaitingLeadsUp(c, Run(c, schedule), t);
  }
}
