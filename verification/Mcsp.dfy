/**
 The two-level priority lock of zm_mcsp.c put together: two MCS locks and the words of the filter, one
 atomic instruction per step.  It refines the two-level lock over any group lock.
 */
module Mcsp {
  import opened Cells
  import Mcs
  import G = McsGroup
  import P = PriorityLock

  type Thread = P.Thread

  /** `outer` is the two-level lock without its group locks, which are `high` and `low`. */
  datatype State = State(high: Mcs.State, low: Mcs.State, outer: P.State)

  const INIT := State(Mcs.INIT, Mcs.INIT, P.INIT)

  function Pc(s: State, t: Thread): P.PC { P.Pc(s.outer, t) }
  function LockOf(s: State, g: P.Group): Mcs.State { if g.High? then s.high else s.low }
  function WithLock(s: State, g: P.Group, l: Mcs.State): State { if g.High? then s.(high := l) else s.(low := l) }
  function Goto(s: State, t: Thread, pc: P.PC): State { s.(outer := P.Goto(s.outer, t, pc)) }

  /** One instruction of thread `t`; an idle thread calls acquire of group `g`.  Inside the acquire or the
      release of a group's lock it is an instruction of the MCS lock. */
  function Step(s: State, t: Thread, g: P.Group): State {
    match Pc(s, t)
    case Idle => Goto(WithLock(s, g, Mcs.Step(LockOf(s, g), t, false)), t, P.Await(g))
    case Await(g) =>
      var l := Mcs.Step(LockOf(s, g), t, false);
      var s' := WithLock(s, g, l);
      if Mcs.Pc(l, t).Critical? then Goto(s', t, if g.High? then P.ReadStraight else P.TakeTicket(P.Low)) else s'
    case AskWaiters => Goto(s, t, if Mcs.Nowaiters(s.high, t) then P.ClearStraight else P.GroupRelease(P.High))
    case GroupRelease(g) =>
      var l := Mcs.Step(LockOf(s, g), t, false);
      var s' := WithLock(s, g, l);
      if Mcs.Pc(l, t).Idle? then Goto(s', t, P.Idle) else s'
    case _ => s.(outer := P.Step(s.outer, P.Turn(t, g, false)))
  }

  /** The two-level lock as it looks from outside the MCS locks. */
  function Outside(s: State): P.State {
    s.outer.(high := G.Outside(s.high), low := G.Outside(s.low))
  }

  // ---------------------------------------------------------------- invariant

  /** Where a thread is in a group's MCS lock follows from where it is in the two-level lock. */
  predicate TiedAt(outer: P.PC, pc: Mcs.PC, g: P.Group) {
    if outer == P.Await(g) then G.Acquiring(pc)
    else if outer == P.GroupRelease(g) then Mcs.Holding(pc)
    else if P.Holding(outer) == Some(g) then pc.Critical?
    else pc.Idle?
  }

  predicate Tied(s: State, t: Thread, g: P.Group) { TiedAt(Pc(s, t), Mcs.Pc(LockOf(s, g), t), g) }

  ghost predicate Inv(s: State) {
    && Mcs.Inv(s.high) && Mcs.Inv(s.low) && P.Inv(Outside(s))
    && (forall t: Thread, g: P.Group :: Tied(s, t, g))
  }

  lemma NoTry(s: State, g: P.Group)
    requires Inv(s)
    ensures Mcs.Inv(LockOf(s, g)) && G.NoTry(LockOf(s, g))
  {
    var l := LockOf(s, g);
    forall t: Thread ensures !Mcs.Pc(l, t).TryCas? && !(Mcs.Pc(l, t).ClearNext? && Mcs.Pc(l, t).try) {
      assert Tied(s, t, g);
    }
    hide P.Inv, Mcs.Inv;
  }

  /** The turn of the two-level lock that does what this step does, if that is visible from outside. */
  function OuterTurn(s: State, t: Thread, g: P.Group): P.Turn {
    P.Turn(t, g, Pc(s, t).AskWaiters? && Mcs.Nowaiters(s.high, t))
  }

  ghost predicate Matches(s: State, s': State, u: P.Turn) {
    Outside(s') == Outside(s) || Outside(s') == P.Step(Outside(s), u)
  }

  predicate InLock(pc: P.PC) { pc.Idle? || pc.Await? || pc.GroupRelease? }

  // ---------------------------------------------------------------- one instruction

  /** An instruction of an MCS lock, seen from outside: the thread asks, enters, leaves, or none of these. */
  lemma LockMoves(l: Mcs.State, t: Thread)
    requires Mcs.Inv(l) && G.NoTry(l)
    ensures var l' := Mcs.Step(l, t, false);
            var pc, pc' := Mcs.Pc(l, t), Mcs.Pc(l', t);
            && Mcs.Inv(l') && G.NoTry(l')
            && (pc.Idle? ==> G.Acquiring(pc') && G.Outside(l') == G.Outside(l).(waiting := G.Outside(l).waiting + {t}))
            && (G.Acquiring(pc) ==>
                  if pc'.Critical?
                  then G.Outside(l).holder.None? && G.Outside(l') == P.GroupLock(Some(t), G.Outside(l).waiting - {t})
                  else G.Acquiring(pc') && G.Outside(l') == G.Outside(l))
            && (Mcs.Holding(pc) ==>
                  if pc'.Idle?
                  then G.Outside(l).holder == Some(t) && G.Outside(l') == G.Outside(l).(holder := None)
                  else Mcs.Holding(pc') && G.Outside(l') == G.Outside(l))
  {
    Mcs.StepKeepsInv(l, t, false);
    G.McsIsGroupLock(l, t);
    G.HolderMoves(l, t);
    G.WaitingMoves(l, t);
    StepPhase(l, t);
    hide Mcs.Inv, Mcs.Step, G.NoTry, G.Waiting;
  }

  lemma StepPhase(l: Mcs.State, t: Thread)
    requires G.NoTry(l)
    ensures var pc, pc' := Mcs.Pc(l, t), Mcs.Pc(Mcs.Step(l, t, false), t);
            && (pc.Idle? ==> G.Acquiring(pc'))
            && (G.Acquiring(pc) ==> G.Acquiring(pc') || pc'.Critical?)
            && (Mcs.Holding(pc) ==> Mcs.Holding(pc') || pc'.Idle?)
  {
  }

  /** Which group's lock a step takes an instruction of. */
  function Target(pc: P.PC, g: P.Group): P.Group
    requires InLock(pc)
  {
    match pc case Await(h) => h case GroupRelease(h) => h case _ => g
  }

  lemma TargetMoves(s: State, t: Thread, g: P.Group)
    requires Inv(s) && InLock(Pc(s, t))
    ensures var h := Target(Pc(s, t), g);
            && LockOf(Step(s, t, g), h) == Mcs.Step(LockOf(s, h), t, false)
            && LockOf(Step(s, t, g), if h.High? then P.Low else P.High) == LockOf(s, if h.High? then P.Low else P.High)
            && Tied(s, t, h) && Mcs.Inv(LockOf(s, h)) && G.NoTry(LockOf(s, h))
  {
    NoTry(s, Target(Pc(s, t), g));
    assert Tied(s, t, Target(Pc(s, t), g));
    hide Inv;
  }

  lemma RequestMatches(s: State, t: Thread, g: P.Group)
    requires Inv(s) && Pc(s, t).Idle?
    ensures Matches(s, Step(s, t, g), OuterTurn(s, t, g))
  {
    TargetMoves(s, t, g);
    LockMoves(LockOf(s, g), t);
    hide Inv, Mcs.Inv, G.NoTry, G.Outside, Mcs.Step, G.Acquiring, Mcs.Holding;
  }

  lemma AwaitMatches(s: State, t: Thread, g: P.Group)
    requires Inv(s) && Pc(s, t).Await?
    ensures Matches(s, Step(s, t, g), OuterTurn(s, t, g))
  {
    TargetMoves(s, t, g);
    LockMoves(LockOf(s, Pc(s, t).g), t);
    hide Inv, Mcs.Inv, G.NoTry, G.Outside, Mcs.Step, G.Acquiring, Mcs.Holding;
  }

  lemma LeaveMatches(s: State, t: Thread, g: P.Group)
    requires Inv(s) && Pc(s, t).GroupRelease?
    ensures Matches(s, Step(s, t, g), OuterTurn(s, t, g))
  {
    TargetMoves(s, t, g);
    LockMoves(LockOf(s, Pc(s, t).g), t);
    hide Inv, Mcs.Inv, G.NoTry, G.Outside, Mcs.Step, G.Acquiring, Mcs.Holding;
  }

  lemma LocalMatches(s: State, t: Thread, g: P.Group)
    requires !InLock(Pc(s, t)) && !Pc(s, t).AskWaiters?
    ensures Matches(s, Step(s, t, g), OuterTurn(s, t, g))
  {
    hide G.Outside;
  }

  lemma AskMatches(s: State, t: Thread, g: P.Group)
    requires Inv(s) && Pc(s, t).AskWaiters?
    ensures Matches(s, Step(s, t, g), OuterTurn(s, t, g))
  {
    assert Tied(s, t, P.High) && P.HolderPc(Outside(s), t, P.High);
    if !Mcs.Nowaiters(s.high, t) { G.NowaitersIsHonest(s.high, t); }
    hide Inv, G.Outside, Mcs.Nowaiters;
  }

  /** Every instruction is one of the two-level lock, or invisible from outside its group locks. */
  lemma StepRefines(s: State, t: Thread, g: P.Group)
    requires Inv(s)
    ensures Matches(s, Step(s, t, g), OuterTurn(s, t, g))
  {
    hide Inv, Matches, Step, OuterTurn;
    if Pc(s, t).Idle? {
      RequestMatches(s, t, g);
    } else if Pc(s, t).Await? {
      AwaitMatches(s, t, g);
    } else if Pc(s, t).GroupRelease? {
      LeaveMatches(s, t, g);
    } else if Pc(s, t).AskWaiters? {
      AskMatches(s, t, g);
    } else {
      LocalMatches(s, t, g);
    }
  }

  // ---------------------------------------------------------------- the invariant is kept

  lemma OthersStay(s: State, t: Thread, g: P.Group, u: Thread, h: P.Group)
    requires u != t
    ensures Pc(Step(s, t, g), u) == Pc(s, u) && Mcs.Pc(LockOf(Step(s, t, g), h), u) == Mcs.Pc(LockOf(s, h), u)
  {
    G.OnlyOneMoves(LockOf(s, h), t, u);
    P.OnlyOneMoves(s.outer, P.Turn(t, g, false), u);
    hide P.Step, Mcs.Step, Mcs.Nowaiters;
    match Pc(s, t)
    case Idle => return;
    case Await(_) => return;
    case GroupRelease(_) => return;
    case _ => return;
  }

  /** Where a step inside a group's lock leads to. */
  function Follows(pc: P.PC, h: P.Group, inner: Mcs.PC): P.PC
    requires InLock(pc)
  {
    match pc
    case Idle => P.Await(h)
    case Await(_) => if inner.Critical? then (if h.High? then P.ReadStraight else P.TakeTicket(P.Low)) else pc
    case GroupRelease(_) => if inner.Idle? then P.Idle else pc
  }

  lemma LockFollows(s: State, t: Thread, g: P.Group)
    requires InLock(Pc(s, t))
    ensures var h := Target(Pc(s, t), g);
            Pc(Step(s, t, g), t) == Follows(Pc(s, t), h, Mcs.Pc(Mcs.Step(LockOf(s, h), t, false), t))
  {
    hide Mcs.Step;
  }

  lemma LockStaysTied(s: State, t: Thread, g: P.Group, h: P.Group)
    requires Inv(s) && InLock(Pc(s, t))
    ensures Tied(Step(s, t, g), t, h)
  {
    var k := Target(Pc(s, t), g);
    assert Tied(s, t, h) && Tied(s, t, k);
    TargetMoves(s, t, g);
    StepPhase(LockOf(s, k), t);
    LockFollows(s, t, g);
    var inner := Mcs.Pc(LockOf(Step(s, t, g), k), t);
    hide Inv, Mcs.Inv, G.NoTry, Mcs.Step, Step, Follows, TiedAt, G.Acquiring, Mcs.Holding, Target;
    if h == k {
      OwnFollows(Pc(s, t), Mcs.Pc(LockOf(s, k), t), inner, k, g);
    } else {
      OtherFollows(Pc(s, t), Mcs.Pc(LockOf(s, h), t), inner, k, h, g);
    }
  }

  lemma OwnFollows(pc: P.PC, inner: Mcs.PC, inner': Mcs.PC, k: P.Group, g: P.Group)
    requires InLock(pc) && k == Target(pc, g) && TiedAt(pc, inner, k)
    requires inner.Idle? ==> G.Acquiring(inner')
    requires G.Acquiring(inner) ==> G.Acquiring(inner') || inner'.Critical?
    requires Mcs.Holding(inner) ==> Mcs.Holding(inner') || inner'.Idle?
    ensures TiedAt(Follows(pc, k, inner'), inner', k)
  {
  }

  lemma OtherFollows(pc: P.PC, inner: Mcs.PC, entered: Mcs.PC, k: P.Group, h: P.Group, g: P.Group)
    requires InLock(pc) && k == Target(pc, g) && h != k && TiedAt(pc, inner, h)
    ensures TiedAt(Follows(pc, k, entered), inner, h)
  {
  }

  /** Between the group locks a thread keeps its group; it leaves by way of GroupRelease. */
  lemma StaysInside(s: State, t: Thread, g: P.Group)
    requires Inv(s) && !InLock(Pc(s, t)) && !Pc(s, t).AskWaiters?
    ensures var pc := P.Pc(P.Step(s.outer, P.Turn(t, g, false)), t);
            !pc.Await? && P.Holding(pc) == P.Holding(Pc(s, t))
  {
    var u := P.Turn(t, g, false);
    P.KeepsLocks(Outside(s), u);
    assert P.Pc(P.Step(Outside(s), u), t) == P.Pc(P.Step(s.outer, u), t) by { hide Inv, P.Inv, G.Outside; }
    hide Inv, P.Step;
  }

  /** Where an instruction outside the group locks leads to, and that it leaves them alone. */
  lemma LocalFollows(s: State, t: Thread, g: P.Group)
    requires Inv(s) && !InLock(Pc(s, t))
    ensures var s' := Step(s, t, g);
            && s'.high == s.high && s'.low == s.low
            && !Pc(s', t).Await? && P.Holding(Pc(s', t)) == P.Holding(Pc(s, t))
  {
    if !Pc(s, t).AskWaiters? { StaysInside(s, t, g); }
    hide Inv, P.Step, Mcs.Nowaiters;
  }

  lemma LocalStaysTied(s: State, t: Thread, g: P.Group, h: P.Group)
    requires Inv(s) && !InLock(Pc(s, t))
    ensures Tied(Step(s, t, g), t, h)
  {
    assert Tied(s, t, h);
    LocalFollows(s, t, g);
    hide Inv, Step, G.Acquiring, G.Outside;
  }

  lemma StepKeepsTied(s: State, t: Thread, g: P.Group, u: Thread, h: P.Group)
    requires Inv(s)
    ensures Tied(Step(s, t, g), u, h)
  {
    if u != t {
      assert Tied(s, u, h);
      OthersStay(s, t, g, u, h);
      hide Inv, Step;
    } else {
      hide Inv, Step, Tied;
      if InLock(Pc(s, t)) { LockStaysTied(s, t, g, h); } else { LocalStaysTied(s, t, g, h); }
    }
  }

  lemma LocksKeepInv(s: State, t: Thread, g: P.Group, h: P.Group)
    requires Mcs.Inv(LockOf(s, h))
    ensures Mcs.Inv(LockOf(Step(s, t, g), h))
  {
    Mcs.StepKeepsInv(LockOf(s, h), t, false);
    hide Mcs.Inv, Mcs.Step, P.Step;
  }

  lemma OuterKeepsInv(s: State, t: Thread, g: P.Group)
    requires Inv(s)
    ensures P.Inv(Outside(Step(s, t, g)))
  {
    StepRefines(s, t, g);
    hide P.Inv, Step, P.Step, Outside;
    P.StepKeepsInv(Outside(s), OuterTurn(s, t, g));
  }

  lemma StepKeepsInv(s: State, t: Thread, g: P.Group)
    requires Inv(s)
    ensures Inv(Step(s, t, g))
  {
    hide P.Inv, Mcs.Inv, Tied, Step, Outside;
    forall u: Thread, h: P.Group ensures Tied(Step(s, t, g), u, h) { StepKeepsTied(s, t, g, u, h); }
    OuterKeepsInv(s, t, g);
    LocksKeepInv(s, t, g, P.High);
    LocksKeepInv(s, t, g, P.Low);
  }

  // ---------------------------------------------------------------- every interleaving

  datatype Turn = Turn(t: Thread, g: P.Group)

  function Run(schedule: seq<Turn>): State {
    if schedule == [] then INIT
    else Step(Run(schedule[..|schedule| - 1]), schedule[|schedule| - 1].t, schedule[|schedule| - 1].g)
  }

  lemma InitIsInv()
    ensures Inv(INIT) && Outside(INIT) == P.INIT
  {
    Mcs.RunKeepsInv([]);
    P.RunKeepsInv([]);
    assert G.Outside(Mcs.INIT) == P.FREE by { assert G.Waiting(Mcs.INIT) == {}; }
  }

  lemma {:induction false} RunKeepsInv(schedule: seq<Turn>)
    ensures Inv(Run(schedule))
  {
    if schedule == [] {
      InitIsInv();
    } else {
      var before, u := schedule[..|schedule| - 1], schedule[|schedule| - 1];
      RunKeepsInv(before);
      hide Inv, Step;
      StepKeepsInv(Run(before), u.t, u.g);
    }
  }

  /** Every run of zm_mcsp is, from outside its MCS locks, a run of the two-level lock. */
  lemma {:induction false} RunRefines(schedule: seq<Turn>) returns (outer: seq<P.Turn>)
    ensures P.Run(outer) == Outside(Run(schedule))
  {
    if schedule == [] {
      InitIsInv();
      outer := [];
    } else {
      var before, u := schedule[..|schedule| - 1], schedule[|schedule| - 1];
      outer := RunRefines(before);
      RunKeepsInv(before);
      StepRefines(Run(before), u.t, u.g);
      hide Inv, Step, P.Step, Outside;
      if Outside(Run(schedule)) != Outside(Run(before)) {
        var v := OuterTurn(Run(before), u.t, u.g);
        assert (outer + [v])[..|outer|] == outer;
        outer := outer + [v];
      }
    }
  }

  /** Across both classes at most one thread is in the critical section of zm_mcsp. */
  lemma MutualExclusion(schedule: seq<Turn>, t: Thread, u: Thread)
    requires Pc(Run(schedule), t).Critical? && Pc(Run(schedule), u).Critical?
    ensures t == u
  {
    var outer := RunRefines(schedule);
    hide Run, P.Run;
    P.MutualExclusion(outer, t, u);
  }

  /** A high thread that has its filter ticket sees at most one low critical section before its own. */
  lemma PriorityBound(schedule: seq<Turn>, t: Thread)
    requires var pc := Pc(Run(schedule), t); pc.SetStraight? || (pc.SpinTicket? && pc.g.High?)
    ensures Run(schedule).outer.lows <= 1
  {
    var outer := RunRefines(schedule);
    hide Run, P.Run;
    P.PriorityBound(outer, t);
  }

  // ---------------------------------------------------------------- no lost hand-off

  /** The thread is inside a call or the critical section and its next instruction is no spin retry. */
  predicate Runnable(s: State, t: Thread) { Pc(s, t) != P.Idle && Step(s, t, P.High) != s }

  /** Inside the acquire or release of a group's lock that no thread holds otherwise, someone can move. */
  lemma SomeoneInLock(s: State, v: Thread, g: P.Group) returns (w: Thread)
    requires Inv(s)
    requires Pc(s, v) == P.GroupRelease(g) || (Pc(s, v) == P.Await(g) && G.Outside(LockOf(s, g)).holder.None?)
    ensures Runnable(s, w)
  {
    var l := LockOf(s, g);
    assert Tied(s, v, g);
    w := Mcs.SomeoneMoves(l, v);
    assert Tied(s, w, g);
    if Mcs.Holding(Mcs.Pc(l, w)) {
      G.HolderAfter(l, w);
      G.HolderAfter(l, v);
    }
    hide Inv, Mcs.Inv, G.Outside, Mcs.Step;
    assert Pc(s, w) == P.Await(g) || Pc(s, w) == P.GroupRelease(g);
    LockChanges(s, w, g);
  }

  lemma LockChanges(s: State, w: Thread, g: P.Group)
    requires Pc(s, w) == P.Await(g) || Pc(s, w) == P.GroupRelease(g)
    requires Mcs.Step(LockOf(s, g), w, false) != LockOf(s, g)
    ensures Runnable(s, w)
  {
    hide Mcs.Step;
    assert LockOf(Step(s, w, P.High), g) == Mcs.Step(LockOf(s, g), w, false);
  }

  lemma LocalMoves(s: State, v: Thread)
    requires !InLock(Pc(s, v)) && P.Runnable(Outside(s), v)
    ensures Runnable(s, v)
  {
    hide G.Outside;
  }

  /** In every reachable state in which some thread is not idle, some thread can move on. */
  lemma NoLostHandoff(schedule: seq<Turn>, t: Thread)
    requires Pc(Run(schedule), t) != P.Idle
    ensures exists w: Thread :: Runnable(Run(schedule), w)
  {
    var s := Run(schedule);
    RunKeepsInv(schedule);
    var outer := RunRefines(schedule);
    hide Run, P.Run, Inv, G.Outside;
    P.NoLostHandoff(outer, t);
    var v :| P.Runnable(Outside(s), v);
    if InLock(Pc(s, v)) {
      var w := SomeoneInLock(s, v, Target(Pc(s, v), P.High));
    } else {
      LocalMoves(s, v);
    }
  }
}
