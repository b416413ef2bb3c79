/** The hierarchical lock as an object: one method per source function, one instruction per call. */
module HmcsObject {
  import opened Cells
  import opened Hmcs
  import opened HmcsRuns

  // ---------------------------------------------------------------- the lock as an object

  class Lock {
    const tree: Tree
    var lock: map<HNode, Option<QNode>>
    var status: map<QNode, int>
    var next: map<QNode, Option<QNode>>
    var took: map<Thread, bool>
    var pc: map<Thread, PC>
    ghost var queue: map<HNode, seq<QNode>>
    ghost var owner: map<HNode, Option<Thread>>
    ghost var served: nat

    ghost function Snapshot(): State
      reads this
    {
      State(lock, status, next, took, pc, queue, owner, served)
    }

    ghost predicate Valid() reads this { ValidTree(tree) && Inv(tree, Snapshot()) }

    constructor (shape: Tree)
      requires ValidTree(shape)
      ensures Valid() && tree == shape && Snapshot() == INIT
    {
      tree := shape;
      lock, status, next, took, pc := map[], map[], map[], map[], map[];
      queue, owner, served := map[], map[], 0;
      new;
      RunKeepsInv(shape, []);
    }

    method MoveTo(t: Thread, to: PC)
      modifies this`pc, this`served
      ensures Snapshot() == Goto(old(Snapshot()), t, to)
    {
      if to.Critical? && !At(pc, t, Idle).Critical? { served := served + 1; }
      pc := pc[t := to];
    }

    /** The next instruction of acquire_from_leaf or tryacq_from_leaf; an idle thread calls one of them. */
    method FromLeaf(t: Thread, try: bool)
      requires Valid()
      requires var p := At(pc, t, Idle); p.Idle? || p.PeekLeaf? || p.PeekRoot? || p.SetFast? || p.TryFlag?
      modifies this
      ensures Valid() && Snapshot() == Step(tree, old(Snapshot()), t, try)
    {
      StepKeepsInv(tree, Snapshot(), t, try);
      hide Inv, AcqStep, ClimbStep, RelStep;
      var slow := Acq(ReuseStatus(false), Site(0, false));
      match At(pc, t, Idle)
      case Idle => MoveTo(t, PeekLeaf(try));
      case PeekLeaf(b) =>
        MoveTo(t, if At(lock, Anc(tree, t, 0), None).None? then PeekRoot(b) else if b then Idle else slow);
      case PeekRoot(b) =>
        if At(lock, Root(tree), None).Some? {
          MoveTo(t, if b then Idle else slow);
        } else {
          MoveTo(t, if b then Acq(ReuseStatus(true), Site(tree.levels - 1, true)) else SetFast);
        }
      case SetFast =>
        took := took[t := true];
        MoveTo(t, Acq(ReuseStatus(false), Site(tree.levels - 1, true)));
      case TryFlag =>
        took := took[t := true];
        MoveTo(t, Critical);
    }

    /** The next instruction of reuse_qnode. */
    method ReuseNode(t: Thread)
      requires Valid() && At(pc, t, Idle).Acq?
      requires var op := At(pc, t, Idle).op; op.ReuseStatus? || op.ReuseNext?
      modifies this
      ensures Valid() && Snapshot() ==
              AcqStep(tree, old(Snapshot()), t, old(At(pc, t, Idle)).op, old(At(pc, t, Idle)).site)
    {
      StepKeepsInv(tree, Snapshot(), t, false);
      assert Step(tree, Snapshot(), t, false) == AcqStep(tree, Snapshot(), t, At(pc, t, Idle).op, At(pc, t, Idle).site);
      hide Inv, Step;
      var a := At(pc, t, Idle).site;
      var q, h := QAt(tree, t, a), HAt(tree, t, a);
      hide QAt, HAt;
      match At(pc, t, Idle).op
      case ReuseStatus(try) =>
        status := status[q := WAIT];
        MoveTo(t, Acq(ReuseNext(try), a));
      case ReuseNext(try) =>
        next := next[q := None];
        MoveTo(t, Acq(if try then TryCas else Swap, a));
    }

    /** SWAP in acquire_helper and acquire_root. */
    method JoinQueue(t: Thread)
      requires Valid() && At(pc, t, Idle).Acq?
      requires At(pc, t, Idle).op.Swap?
      modifies this
      ensures Valid() && Snapshot() ==
              AcqStep(tree, old(Snapshot()), t, old(At(pc, t, Idle)).op, old(At(pc, t, Idle)).site)
    {
      StepKeepsInv(tree, Snapshot(), t, false);
      assert Step(tree, Snapshot(), t, false) == AcqStep(tree, Snapshot(), t, At(pc, t, Idle).op, At(pc, t, Idle).site);
      hide Inv, Step;
      var a := At(pc, t, Idle).site;
      var q, h := QAt(tree, t, a), HAt(tree, t, a);
      hide QAt, HAt;
      match At(pc, t, Idle).op
      case Swap =>
        var pred := At(lock, h, None);
        lock := lock[h := Some(q)];
        if pred.None? {
          queue, owner := queue[h := [q]], owner[h := Some(t)];
          MoveTo(t, if AtRoot(tree, a) then Critical else Acq(Start, a));
        } else {
          queue := queue[h := At(queue, h, []) + [q]];
          MoveTo(t, Acq(Link(pred.value), a));
        }
    }

    /** The CAS of tryacq_root. */
    method TryRoot(t: Thread)
      requires Valid() && At(pc, t, Idle).Acq?
      requires At(pc, t, Idle).op.TryCas?
      modifies this
      ensures Valid() && Snapshot() ==
              AcqStep(tree, old(Snapshot()), t, old(At(pc, t, Idle)).op, old(At(pc, t, Idle)).site)
    {
      StepKeepsInv(tree, Snapshot(), t, false);
      assert Step(tree, Snapshot(), t, false) == AcqStep(tree, Snapshot(), t, At(pc, t, Idle).op, At(pc, t, Idle).site);
      hide Inv, Step;
      var a := At(pc, t, Idle).site;
      var q, h := QAt(tree, t, a), HAt(tree, t, a);
      hide QAt, HAt;
      if At(lock, h, None).None? {
        lock := lock[h := Some(q)];
        queue, owner := queue[h := [q]], owner[h := Some(t)];
        MoveTo(t, TryFlag);
      } else {
        MoveTo(t, Idle);
      }
    }

    /** The instructions of acquire_helper and acquire_root after the swap. */
    method AwaitTurn(t: Thread)
      requires Valid() && At(pc, t, Idle).Acq?
      requires var op := At(pc, t, Idle).op; op.Start? || op.Link? || op.Spin?
      modifies this
      ensures Valid() && Snapshot() ==
              AcqStep(tree, old(Snapshot()), t, old(At(pc, t, Idle)).op, old(At(pc, t, Idle)).site)
    {
      StepKeepsInv(tree, Snapshot(), t, false);
      assert Step(tree, Snapshot(), t, false) == AcqStep(tree, Snapshot(), t, At(pc, t, Idle).op, At(pc, t, Idle).site);
      hide Inv, Step;
      var a := At(pc, t, Idle).site;
      var q, h := QAt(tree, t, a), HAt(tree, t, a);
      hide QAt, HAt;
      match At(pc, t, Idle).op
      case Start =>
        status := status[q := COHORT_START];
        MoveTo(t, Acq(ReuseStatus(false), Site(a.level + 1, false)));
      case Link(pred) =>
        next := next[pred := Some(q)];
        MoveTo(t, Acq(Spin, a));
      case Spin =>
        var mine := At(status, q, WAIT);
        if mine != WAIT {
          if AtRoot(tree, a) || mine < ACQUIRE_PARENT {
            MoveTo(t, Critical);
          } else if mine == ACQUIRE_PARENT {
            MoveTo(t, Acq(Start, a));
          }
        }
    }

    /** The next instruction of release_from_leaf. */
    method Release(t: Thread)
      requires Valid()
      requires var p := At(pc, t, Idle); p.Critical? || p.ReadFlag? || p.ClearFast?
      modifies this
      ensures Valid() && Snapshot() == Step(tree, old(Snapshot()), t, false)
    {
      StepKeepsInv(tree, Snapshot(), t, false);
      hide Inv, AcqStep, ClimbStep, RelStep;
      match At(pc, t, Idle)
      case Critical => MoveTo(t, ReadFlag);
      case ReadFlag =>
        MoveTo(t, if At(took, t, false) then Rel(Unlock, Site(tree.levels - 1, true)) else ReleaseEntry(tree, 0));
      case ClearFast =>
        took := took[t := false];
        MoveTo(t, Idle);
    }

    /** `t` signals `succ` at `h`. */
    method Signal(t: Thread, h: HNode, succ: QNode, value: int)
      modifies this`status, this`queue, this`owner
      ensures Snapshot() == Grant(old(Snapshot()), t, h, succ, value)
    {
      owner := Grant(Snapshot(), t, h, succ, value).owner;
      status := status[succ := value];
      queue := queue[h := if At(queue, h, []) == [] then [] else At(queue, h, [])[1..]];
    }

    /** The next instruction of release_helper below the root. */
    method ReleaseHelper(t: Thread)
      requires Valid() && At(pc, t, Idle).Climb?
      modifies this
      ensures Valid()
      ensures Snapshot() == ClimbStep(tree, old(Snapshot()), t, old(At(pc, t, Idle)).cop, old(At(pc, t, Idle)).level)
    {
      StepKeepsInv(tree, Snapshot(), t, false);
      assert Step(tree, Snapshot(), t, false) ==
          ClimbStep(tree, Snapshot(), t, At(pc, t, Idle).cop, At(pc, t, Idle).level);
      hide Inv, Step, Grant;
      var i := At(pc, t, Idle).level;
      var q, h := QAt(tree, t, Site(i, false)), HAt(tree, t, Site(i, false));
      hide QAt, HAt;
      match At(pc, t, Idle).cop
      case ReadCount =>
        var count := At(status, q, WAIT);
        MoveTo(t, if count == tree.threshold then ReleaseEntry(tree, i + 1) else Climb(ReadSucc(count), i));
      case ReadSucc(count) =>
        var succ := At(next, q, None);
        MoveTo(t, if succ.Some? then Climb(Pass(count, succ.value), i) else ReleaseEntry(tree, i + 1));
      case Pass(count, succ) =>
        Signal(t, h, succ, count + 1);
        MoveTo(t, Down(Site(i, false)));
    }

    /** The next instruction of normal_mcs_release_with_value until it has a successor or needs none. */
    method NormalRelease(t: Thread)
      requires Valid() && At(pc, t, Idle).Rel? && !At(pc, t, Idle).rop.Handoff?
      modifies this
      ensures Valid()
      ensures Snapshot() == RelStep(tree, old(Snapshot()), t, old(At(pc, t, Idle)).rop, old(At(pc, t, Idle)).site)
    {
      StepKeepsInv(tree, Snapshot(), t, false);
      assert Step(tree, Snapshot(), t, false) ==
          RelStep(tree, Snapshot(), t, At(pc, t, Idle).rop, At(pc, t, Idle).site);
      hide Inv, Step, Grant;
      var a := At(pc, t, Idle).site;
      var q, h := QAt(tree, t, a), HAt(tree, t, a);
      hide QAt, HAt;
      match At(pc, t, Idle).rop
      case Unlock =>
        var succ := At(next, q, None);
        MoveTo(t, Rel(if succ.Some? then Handoff(succ.value) else UnlockCas, a));
      case UnlockCas =>
        if At(lock, h, None) == Some(q) {
          lock, queue, owner := lock[h := None], queue[h := []], owner[h := None];
          served := if AtRoot(tree, a) then 0 else served;
          MoveTo(t, Down(a));
        } else {
          MoveTo(t, Rel(UnlockSpin, a));
        }
      case UnlockSpin =>
        var succ := At(next, q, None);
        if succ.Some? { MoveTo(t, Rel(Handoff(succ.value), a)); }
    }

    /** The store to the successor's status in normal_mcs_release_with_value. */
    method WakeSuccessor(t: Thread)
      requires Valid() && At(pc, t, Idle).Rel? && At(pc, t, Idle).rop.Handoff?
      modifies this
      ensures Valid()
      ensures Snapshot() == RelStep(tree, old(Snapshot()), t, old(At(pc, t, Idle)).rop, old(At(pc, t, Idle)).site)
    {
      StepKeepsInv(tree, Snapshot(), t, false);
      assert Step(tree, Snapshot(), t, false) ==
          RelStep(tree, Snapshot(), t, At(pc, t, Idle).rop, At(pc, t, Idle).site);
      hide Inv, Step, Grant;
      var a, succ := At(pc, t, Idle).site, At(pc, t, Idle).rop.succ;
      var h := HAt(tree, t, a);
      hide QAt, HAt;
      served := if AtRoot(tree, a) then 0 else served;
      Signal(t, h, succ, ReleaseValue(tree, a));
      MoveTo(t, Down(a));
    }
  }
}
