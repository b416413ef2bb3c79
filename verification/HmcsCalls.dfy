/**
 What a caller of the hierarchical lock gets: an acquire comes back only with the lock, a tryacq comes
 back without it only if a lock word was taken when it looked, and the fast path is taken exactly if
 both lock words looked at were free.
 */
module HmcsCalls {
  import opened Cells
  import opened Hmcs
  import opened HmcsQuiet
  import opened HmcsRuns
  import opened HmcsPassing

  /** A call of a thread: which it is, how many instructions it has executed other than spin retries,
      whether the lock words the first two look at were null, and whether the thread has entered since. */
  datatype Call = Call(try: bool, steps: nat, free: bool, entered: bool)

  /** The tree node whose lock word an acquire or a tryacq looks at: first its leaf's, then the root. */
  function LooksAt(c: Tree, t: Thread, steps: nat): HNode { if steps == 0 then Anc(c, t, 0) else Root(c) }

  /** One more instruction of `t`, from `s` to `s'`. */
  function CallOn(c: Tree, k: Call, s: State, s': State, t: Thread): Call {
    Call(k.try, if s' == s then k.steps else k.steps + 1,
         k.free && (k.steps < 2 ==> Lock(s, LooksAt(c, t, k.steps)).None?),
         k.entered || (!Pc(s, t).Critical? && Pc(s', t).Critical?))
  }

  /** The last call a thread has made in a run. */
  function LastCall(c: Tree, schedule: seq<Turn>, t: Thread): Option<Call>
    requires c.levels >= 1
  {
    if schedule == [] then None
    else
      var before, u := schedule[..|schedule| - 1], schedule[|schedule| - 1];
      var k := LastCall(c, before, t);
      if u.t != t then k
      else if Pc(Run(c, before), t).Idle? then Some(Call(u.try, 0, true, false))
      else if k.None? then None
      else Some(CallOn(c, k.value, Run(c, before), Run(c, schedule), t))
  }

  /** Where a thread is in its call. */
  predicate CallAt(pc: PC, took: bool, k: Call) {
    match pc
    case Idle => k.try || k.entered
    case PeekLeaf(b) => b == k.try && k.steps == 0 && k.free && !k.entered
    case PeekRoot(b) => b == k.try && k.steps == 1 && k.free && !k.entered
    case SetFast => !k.try && k.steps >= 2 && k.free && !k.entered
    case Acq(op, a) => Trying(op) == k.try && !k.entered && a.fast == k.free
        && (k.steps >= 2 || (k.steps == 1 && !k.free))
    case TryFlag => k.try && k.steps >= 2 && k.free && !k.entered
    case Critical => k.entered && took == k.free && k.steps >= 2
    case _ => k.entered
  }

  predicate CallOk(s: State, t: Thread, k: Call) { CallAt(Pc(s, t), Took(s, t), k) }

  ghost predicate CallKnown(c: Tree, schedule: seq<Turn>, t: Thread)
    requires c.levels >= 1
  {
    match LastCall(c, schedule, t)
    case None => Pc(Run(c, schedule), t).Idle?
    case Some(k) => CallOk(Run(c, schedule), t, k)
  }

  /** Where an instruction of acquire leads to, once a site is chosen. */
  predicate AcqLeads(pc: PC, pc': PC)
    requires pc.Acq?
  {
    match pc'
    case Acq(op, a) => Trying(op) == Trying(pc.op) && a.fast == pc.site.fast
    case TryFlag => Trying(pc.op)
    case Critical => !Trying(pc.op)
    case Idle => Trying(pc.op)
    case _ => false
  }

  lemma AcqFlag(c: Tree, s: State, t: Thread)
    requires LocalOk(c, s, t) && Pc(s, t).Acq?
    ensures Took(s, t) == (Pc(s, t).site.fast && !Trying(Pc(s, t).op))
    ensures Pc(s, t).op.Start? ==> !Pc(s, t).site.fast
  {
    hide QAt, HAt, Anc;
  }

  lemma AcqPrepares(c: Tree, s: State, t: Thread, op: AcqOp, a: Site)
    requires Pc(s, t) == Acq(op, a) && (op.Start? ==> !a.fast) && !op.Swap? && !op.Spin? && !op.TryCas?
    ensures var s' := AcqStep(c, s, t, op, a); AcqLeads(Pc(s, t), Pc(s', t)) && Took(s', t) == Took(s, t)
  {
    hide QAt, HAt, Anc, AtRoot, Seize;
    match op
    case ReuseStatus(_) => return;
    case ReuseNext(_) => return;
    case Start => return;
    case Link(_) => return;
  }

  lemma Went(s: State, t: Thread, pc: PC)
    ensures Pc(Goto(s, t, pc), t) == pc && Took(Goto(s, t, pc), t) == Took(s, t)
  {
  }

  lemma SwapMoves(c: Tree, s: State, t: Thread, a: Site)
    requires Pc(s, t) == Acq(Swap, a)
    ensures var s' := AcqStep(c, s, t, Swap, a); AcqLeads(Pc(s, t), Pc(s', t)) && Took(s', t) == Took(s, t)
  {
    var q, h := QAt(c, t, a), HAt(c, t, a);
    hide QAt, HAt, AtRoot, Goto;
    if Lock(s, h).None? {
      Went(Seize(s, t, h, q), t, if AtRoot(c, a) then Critical else Acq(Start, a));
    } else {
      Went(s.(lock := s.lock[h := Some(q)], queue := s.queue[h := Queue(s, h) + [q]]), t,
          Acq(Link(Lock(s, h).value), a));
    }
  }

  lemma AcqMoves(c: Tree, s: State, t: Thread, op: AcqOp, a: Site)
    requires Pc(s, t) == Acq(op, a) && (op.Start? ==> !a.fast)
    ensures var s' := AcqStep(c, s, t, op, a); AcqLeads(Pc(s, t), Pc(s', t)) && Took(s', t) == Took(s, t)
  {
    hide QAt, HAt, Anc, AtRoot;
    match op
    case Swap => hide AcqStep; SwapMoves(c, s, t, a); return;
    case Spin => return;
    case TryCas => return;
    case _ => hide AcqStep; AcqPrepares(c, s, t, op, a); return;
  }

  lemma AcqKeepsCall(c: Tree, s: State, t: Thread, try: bool, k: Call)
    requires c.levels >= 1 && LocalOk(c, s, t) && CallOk(s, t, k) && Pc(s, t).Acq?
    ensures CallOk(Step(c, s, t, try), t, CallOn(c, k, s, Step(c, s, t, try), t))
  {
    AcqFlag(c, s, t);
    hide LocalOk, Anc, Root, AcqStep, ClimbStep, RelStep;
    AcqMoves(c, s, t, Pc(s, t).op, Pc(s, t).site);
  }

  lemma ClimbMoves(c: Tree, s: State, t: Thread, try: bool)
    requires c.levels >= 1 && Pc(s, t).Climb?
    ensures var pc := Pc(Step(c, s, t, try), t); pc.Climb? || pc.Rel? || pc.ClearFast? || pc.Idle?
  {
    hide QAt, HAt, AcqStep, RelStep, Grant;
  }

  lemma RelMoves(c: Tree, s: State, t: Thread, try: bool)
    requires c.levels >= 1 && Pc(s, t).Rel?
    ensures var pc := Pc(Step(c, s, t, try), t); pc.Climb? || pc.Rel? || pc.ClearFast? || pc.Idle?
  {
    hide QAt, HAt, AcqStep, ClimbStep, Grant, AtRoot, ReleaseValue;
    match Pc(s, t).rop
    case UnlockCas => return;
    case _ => return;
  }

  lemma ReleaseKeepsCall(c: Tree, s: State, t: Thread, try: bool, k: Call)
    requires c.levels >= 1 && CallOk(s, t, k) && (Pc(s, t).Climb? || Pc(s, t).Rel?)
    ensures CallOk(Step(c, s, t, try), t, CallOn(c, k, s, Step(c, s, t, try), t))
  {
    hide Step, Anc, Root;
    if Pc(s, t).Climb? { ClimbMoves(c, s, t, try); } else { RelMoves(c, s, t, try); }
  }

  /** Where the looks lead to. */
  lemma LookMoves(c: Tree, s: State, t: Thread, try: bool)
    requires c.levels >= 1 && (Pc(s, t).PeekLeaf? || Pc(s, t).PeekRoot?)
    ensures var pc, b, slow := Pc(Step(c, s, t, try), t), Pc(s, t).try, Acq(ReuseStatus(false), Site(0, false));
            if Pc(s, t).PeekLeaf? then
              pc == if Lock(s, LooksAt(c, t, 0)).None? then PeekRoot(b) else if b then Idle else slow
            else
              pc == if Lock(s, LooksAt(c, t, 1)).Some? then (if b then Idle else slow)
                    else if b then Acq(ReuseStatus(true), Site(c.levels - 1, true)) else SetFast
  {
    hide AcqStep, ClimbStep, RelStep, Anc, Root;
    if Pc(s, t).PeekLeaf? { return; }
  }

  /** Where the instructions around the critical section lead to. */
  lemma SideLeads(c: Tree, s: State, t: Thread, try: bool)
    requires c.levels >= 1
    requires var pc := Pc(s, t); pc.SetFast? || pc.TryFlag? || pc.Critical? || pc.ReadFlag? || pc.ClearFast?
    ensures var pc := Pc(Step(c, s, t, try), t);
            match Pc(s, t)
            case SetFast => pc == Acq(ReuseStatus(false), Site(c.levels - 1, true))
            case TryFlag => pc.Critical? && Took(Step(c, s, t, try), t)
            case Critical => pc.ReadFlag?
            case ReadFlag => pc.Climb? || pc.Rel?
            case _ => pc.Idle?
  {
    hide AcqStep, ClimbStep, RelStep, Anc, Root;
    match Pc(s, t)
    case ReadFlag => return;
    case _ => return;
  }

  lemma LookKeepsCall(c: Tree, s: State, t: Thread, try: bool, k: Call)
    requires c.levels >= 1 && CallOk(s, t, k) && (Pc(s, t).PeekLeaf? || Pc(s, t).PeekRoot?)
    ensures CallOk(Step(c, s, t, try), t, CallOn(c, k, s, Step(c, s, t, try), t))
  {
    LookMoves(c, s, t, try);
    hide Step, Anc, Root, LooksAt, Took;
    if Pc(s, t).PeekLeaf? { return; }
  }

  lemma SideKeepsCall(c: Tree, s: State, t: Thread, try: bool, k: Call)
    requires c.levels >= 1 && CallOk(s, t, k)
    requires var pc := Pc(s, t); pc.SetFast? || pc.TryFlag? || pc.Critical? || pc.ReadFlag? || pc.ClearFast?
    ensures CallOk(Step(c, s, t, try), t, CallOn(c, k, s, Step(c, s, t, try), t))
  {
    SideLeads(c, s, t, try);
    hide Step, Anc, Root, LooksAt, Took;
  }

  lemma AcqOthers(c: Tree, s: State, t: Thread, op: AcqOp, a: Site, x: Thread)
    requires x != t
    ensures Pc(AcqStep(c, s, t, op, a), x) == Pc(s, x) && Took(AcqStep(c, s, t, op, a), x) == Took(s, x)
  {
    hide QAt, HAt, Anc, AtRoot;
    match op
    case Swap => return;
    case TryCas => return;
    case _ => return;
  }

  lemma ClimbOthers(c: Tree, s: State, t: Thread, op: ClimbOp, i: nat, x: Thread)
    requires x != t
    ensures Pc(ClimbStep(c, s, t, op, i), x) == Pc(s, x) && Took(ClimbStep(c, s, t, op, i), x) == Took(s, x)
  {
    hide QAt, HAt, Anc, ReleaseEntry, Down;
    match op
    case Pass(_, _) => return;
    case _ => return;
  }

  lemma RelOthers(c: Tree, s: State, t: Thread, op: RelOp, a: Site, x: Thread)
    requires x != t
    ensures Pc(RelStep(c, s, t, op, a), x) == Pc(s, x) && Took(RelStep(c, s, t, op, a), x) == Took(s, x)
  {
    hide QAt, HAt, Anc, AtRoot, ReleaseValue, Down;
    match op
    case UnlockCas => return;
    case Handoff(_) => return;
    case _ => return;
  }

  /** A step of another thread leaves a thread's place in its call, and its flag, alone. */
  lemma OthersKeepCall(c: Tree, s: State, t: Thread, try: bool, x: Thread)
    requires c.levels >= 1 && x != t
    ensures Pc(Step(c, s, t, try), x) == Pc(s, x) && Took(Step(c, s, t, try), x) == Took(s, x)
  {
    hide AcqStep, ClimbStep, RelStep, Anc, Root, Pc, Took;
    match Pc(s, t)
    case Acq(op, a) => AcqOthers(c, s, t, op, a, x); return;
    case Climb(op, i) => ClimbOthers(c, s, t, op, i, x); return;
    case Rel(op, a) => RelOthers(c, s, t, op, a, x); return;
    case TryFlag => hide Step; ExitSideStep(c, s, t, try); return;
    case Critical => hide Step; ExitSideStep(c, s, t, try); return;
    case ReadFlag => hide Step; ExitSideStep(c, s, t, try); return;
    case ClearFast => hide Step; ExitSideStep(c, s, t, try); return;
    case _ => hide Step; EntrySideStep(c, s, t, try); return;
  }

  lemma {:induction false} RunKeepsCall(c: Tree, schedule: seq<Turn>, t: Thread)
    requires ValidTree(c)
    ensures CallKnown(c, schedule, t)
  {
    if schedule != [] {
      var before, u := schedule[..|schedule| - 1], schedule[|schedule| - 1];
      RunKeepsCall(c, before, t);
      RunKeepsInv(c, before);
      var s := Run(c, before);
      assert LocalOk(c, s, t);
      assert Pc(s, t).Idle? ==> Pc(Step(c, s, t, u.try), t) == PeekLeaf(u.try) by { hide AcqStep, ClimbStep, RelStep; }
      hide Inv, ValidTree, Step, LocalOk, CallOn;
      if u.t != t {
        OthersKeepCall(c, s, u.t, u.try, t);
      } else if !Pc(s, t).Idle? {
        var k := LastCall(c, before, t).value;
        hide CallOk;
        if Pc(s, t).Acq? {
          AcqKeepsCall(c, s, t, u.try, k);
        } else if Pc(s, t).Climb? || Pc(s, t).Rel? {
          ReleaseKeepsCall(c, s, t, u.try, k);
        } else if Pc(s, t).PeekLeaf? || Pc(s, t).PeekRoot? {
          LookKeepsCall(c, s, t, u.try, k);
        } else {
          SideKeepsCall(c, s, t, u.try, k);
        }
      }
    }
  }

  /** An acquire is over only after the thread has been in the critical section since it was called. */
  lemma AcquireEnters(c: Tree, schedule: seq<Turn>, t: Thread)
    requires ValidTree(c) && Pc(Run(c, schedule), t).Idle?
    ensures var k := LastCall(c, schedule, t); k.None? || k.value.try || k.value.entered
  {
    RunKeepsCall(c, schedule, t);
  }

  /** A call ends without an entry only if it is a tryacq, and the lock word it looks at is taken. */
  lemma TryFailsOnlyIfTaken(c: Tree, schedule: seq<Turn>, t: Thread, try: bool)
    requires ValidTree(c) && !Pc(Run(c, schedule), t).Idle? && Pc(Step(c, Run(c, schedule), t, try), t).Idle?
    ensures LastCall(c, schedule, t).Some?
    ensures var k := LastCall(c, schedule, t).value;
            !k.entered ==> k.try && Lock(Run(c, schedule), LooksAt(c, t, k.steps)).Some?
  {
    var s := Run(c, schedule);
    RunKeepsCall(c, schedule, t);
    RunKeepsInv(c, schedule);
    assert LocalOk(c, s, t);
    hide Run;
    if !LastCall(c, schedule, t).value.entered { FailedLook(c, s, t, try, LastCall(c, schedule, t).value); }
  }

  lemma FailedLook(c: Tree, s: State, t: Thread, try: bool, k: Call)
    requires ValidTree(c) && CallOk(s, t, k) && LocalOk(c, s, t) && !k.entered
    requires !Pc(s, t).Idle? && Pc(Step(c, s, t, try), t).Idle?
    ensures k.try && Lock(s, LooksAt(c, t, k.steps)).Some?
  {
    if Pc(s, t).Acq? {
      FailedCas(c, s, t, try);
      hide Step, Anc;
    } else {
      assert c.levels >= 1;
      LookMoves(c, s, t, try);
      hide Step, Anc, Root, ValidTree;
    }
  }

  lemma FailedCas(c: Tree, s: State, t: Thread, try: bool)
    requires ValidTree(c) && LocalOk(c, s, t) && Pc(s, t).Acq? && Pc(Step(c, s, t, try), t).Idle?
    ensures Trying(Pc(s, t).op) && Lock(s, Root(c)).Some?
  {
    var op, a := Pc(s, t).op, Pc(s, t).site;
    AcqFlag(c, s, t);
    AcqMoves(c, s, t, op, a);
    assert Trying(op) ==> HAt(c, t, a) == Root(c);
    hide LocalOk, ClimbStep, RelStep, QAt, HAt, Anc, Root, Seize;
    match op
    case TryCas => return;
    case _ => return;
  }

  /** A tryacq never stands behind another queue node. */
  lemma TryNeverWaits(c: Tree, schedule: seq<Turn>, t: Thread, h: HNode, i: nat)
    requires ValidTree(c) && LastCall(c, schedule, t).Some? && LastCall(c, schedule, t).value.try
    requires 0 < i < |Queue(Run(c, schedule), h)|
    ensures Actor(Run(c, schedule), Queue(Run(c, schedule), h)[i]) != Some(t)
  {
    var s := Run(c, schedule);
    RunKeepsCall(c, schedule, t);
    RunKeepsInv(c, schedule);
    assert QueueOk(c, s, h);
    assert Waits(c, s, h, Queue(s, h)[i - 1], Queue(s, h)[i]);
    hide Run, Inv;
  }

  /** In the critical section a thread holds the root through its own leaf exactly if both lock words
      its call looked at were free. */
  lemma FastPathExactly(c: Tree, schedule: seq<Turn>, t: Thread)
    requires ValidTree(c) && Pc(Run(c, schedule), t).Critical?
    ensures LastCall(c, schedule, t).Some?
    ensures Took(Run(c, schedule), t) <==> LastCall(c, schedule, t).value.free
  {
    RunKeepsCall(c, schedule, t);
  }

  // ---------------------------------------------------------------- bounded work

  function AcqRank(op: AcqOp): nat {
    match op
    case ReuseStatus(_) => 6
    case ReuseNext(_) => 5
    case Swap => 4
    case TryCas => 4
    case Link(_) => 3
    case Spin => 2
    case Start => 1
  }

  function ClimbRank(op: ClimbOp): nat { match op case ReadCount => 2 case ReadSucc(_) => 1 case Pass(_, _) => 0 }

  function RelRank(op: RelOp): nat {
    match op case Unlock => 4 case UnlockCas => 3 case UnlockSpin => 2 case Handoff(_) => 1
  }

  /** How many instructions a thread has at most ahead of it, from its call to the end of its release, not
      counting spin retries, in a tree of `n` levels. */
  function Rank(n: nat, pc: PC): int {
    match pc
    case Idle => 0
    case ClearFast => 1
    case Rel(op, a) => 4 * a.level + RelRank(op) + 1
    case Climb(op, i) => 4 * n + 2 + 3 * (n - i) + ClimbRank(op)
    case ReadFlag => 7 * n + 5
    case Critical => 7 * n + 6
    case TryFlag => 7 * n + 7
    case Acq(op, a) => 7 * n + 8 + 7 * (n - 1 - a.level) + AcqRank(op)
    case SetFast => 14 * n + 8
    case PeekRoot(_) => 14 * n + 9
    case PeekLeaf(_) => 14 * n + 10
  }

  lemma AcqDrops(c: Tree, s: State, t: Thread, op: AcqOp, a: Site)
    requires LocalOk(c, s, t) && Pc(s, t) == Acq(op, a)
    ensures AcqStep(c, s, t, op, a) == s || Rank(c.levels, Pc(AcqStep(c, s, t, op, a), t)) < Rank(c.levels, Pc(s, t))
  {
    hide QAt, HAt, Anc;
    match op
    case ReuseStatus(_) => return;
    case ReuseNext(_) => return;
    case Swap => return;
    case Start => return;
    case Link(_) => return;
    case Spin => return;
    case TryCas => return;
  }

  lemma ClimbDrops(c: Tree, s: State, t: Thread, op: ClimbOp, i: nat)
    requires LocalOk(c, s, t) && Pc(s, t) == Climb(op, i)
    ensures Rank(c.levels, Pc(ClimbStep(c, s, t, op, i), t)) < Rank(c.levels, Pc(s, t))
  {
    hide QAt, HAt, Anc, Grant;
    match op
    case ReadCount => return;
    case ReadSucc(_) => return;
    case Pass(_, _) => return;
  }

  lemma RelDrops(c: Tree, s: State, t: Thread, op: RelOp, a: Site)
    requires Pc(s, t) == Rel(op, a)
    ensures RelStep(c, s, t, op, a) == s || Rank(c.levels, Pc(RelStep(c, s, t, op, a), t)) < Rank(c.levels, Pc(s, t))
  {
    hide QAt, HAt, Anc, Grant, AtRoot, ReleaseValue;
    match op
    case Unlock => return;
    case UnlockCas => return;
    case UnlockSpin => return;
    case Handoff(_) => return;
  }

  lemma LookDrops(c: Tree, s: State, t: Thread, try: bool)
    requires c.levels >= 1 && (Pc(s, t).PeekLeaf? || Pc(s, t).PeekRoot?)
    ensures Rank(c.levels, Pc(Step(c, s, t, try), t)) < Rank(c.levels, Pc(s, t))
  {
    LookMoves(c, s, t, try);
    hide Step, Anc;
  }

  lemma StartDrops(c: Tree, s: State, t: Thread, try: bool)
    requires c.levels >= 1 && Pc(s, t).ReadFlag?
    ensures Rank(c.levels, Pc(Step(c, s, t, try), t)) < Rank(c.levels, Pc(s, t))
  {
    hide AcqStep, ClimbStep, RelStep;
  }

  lemma SideDrops(c: Tree, s: State, t: Thread, try: bool)
    requires c.levels >= 1 && (Pc(s, t).SetFast? || Pc(s, t).TryFlag? || Pc(s, t).Critical? || Pc(s, t).ClearFast?)
    ensures Rank(c.levels, Pc(Step(c, s, t, try), t)) < Rank(c.levels, Pc(s, t))
  {
    SideLeads(c, s, t, try);
    hide Step;
  }

  /** Every instruction of a thread inside its call is a spin retry or brings the call nearer to its end. */
  lemma StepDrops(c: Tree, s: State, t: Thread, try: bool)
    requires c.levels >= 1 && LocalOk(c, s, t) && !Pc(s, t).Idle?
    ensures Step(c, s, t, try) == s || Rank(c.levels, Pc(Step(c, s, t, try), t)) < Rank(c.levels, Pc(s, t))
  {
    hide LocalOk, AcqStep, ClimbStep, RelStep, Rank, Anc, Root;
    match Pc(s, t)
    case Acq(op, a) => AcqDrops(c, s, t, op, a); return;
    case Climb(op, i) => ClimbDrops(c, s, t, op, i); return;
    case Rel(op, a) => RelDrops(c, s, t, op, a); return;
    case PeekLeaf(_) => hide Step; LookDrops(c, s, t, try); return;
    case PeekRoot(_) => hide Step; LookDrops(c, s, t, try); return;
    case ReadFlag => hide Step; StartDrops(c, s, t, try); return;
    case _ => hide Step; SideDrops(c, s, t, try); return;
  }

  lemma RankPositive(c: Tree, s: State, t: Thread)
    requires LocalOk(c, s, t)
    ensures Rank(c.levels, Pc(s, t)) >= 0
  {
    hide QAt, HAt, Anc;
  }

  lemma {:induction false} WorkSoFar(c: Tree, schedule: seq<Turn>, t: Thread)
    requires ValidTree(c) && LastCall(c, schedule, t).Some?
    ensures LastCall(c, schedule, t).value.steps + Rank(c.levels, Pc(Run(c, schedule), t)) <= 14 * c.levels + 10
  {
    var before, u := schedule[..|schedule| - 1], schedule[|schedule| - 1];
    var s := Run(c, before);
    RunKeepsCall(c, before, t);
    RunKeepsInv(c, before);
    assert LocalOk(c, s, t) && c.levels >= 1;
    assert Pc(s, t).Idle? ==> Pc(Step(c, s, t, u.try), t) == PeekLeaf(u.try) by { hide AcqStep, ClimbStep, RelStep; }
    hide Inv, ValidTree, Step, LocalOk, CallOk;
    if u.t != t {
      OthersKeepCall(c, s, u.t, u.try, t);
      WorkSoFar(c, before, t);
    } else if !Pc(s, t).Idle? {
      WorkSoFar(c, before, t);
      hide Rank;
      StepDrops(c, s, t, u.try);
    }
  }

  /** From its call to the end of its release a thread executes at most 14 instructions for each level and
      10 more, besides the retries of spin loops, whatever other threads do. */
  lemma BoundedWork(c: Tree, schedule: seq<Turn>, t: Thread)
    requires ValidTree(c) && LastCall(c, schedule, t).Some?
    ensures LastCall(c, schedule, t).value.steps <= 14 * c.levels + 10
  {
    WorkSoFar(c, schedule, t);
    RunKeepsInv(c, schedule);
    assert LocalOk(c, Run(c, schedule), t);
    RankPositive(c, Run(c, schedule), t);
  }
}
