/** The MCS lock is a lock the two-level priority lock may be built from, as zm_mcsp.c does. */
module McsGroup {
  import opened Cells
  import Mcs
  import P = PriorityLock

  type Thread = Mcs.Thread

  /** Inside acquire_c, from the call until the lock is seen to be free. */
  predicate Acquiring(pc: Mcs.PC) {
    (pc.ClearNext? && !pc.try) || pc.SwapLock? || pc.SetLocked? || pc.LinkPred? || pc.SpinStatus?
  }

  function Waiting(s: Mcs.State): (w: set<Thread>)
    ensures forall t: Thread :: t in w <==> Acquiring(Mcs.Pc(s, t))
  {
    set t: Thread | t in s.pc && Acquiring(s.pc[t])
  }

  /** What the MCS lock looks like from outside: its holder and the threads inside its acquire. */
  function Outside(s: Mcs.State): P.GroupLock {
    P.GroupLock(if s.queue != [] && Mcs.Holding(Mcs.Pc(s, s.queue[0])) then Some(s.queue[0]) else None, Waiting(s))
  }

  /** The moves the two-level lock lets a group's lock make. */
  predicate GroupStep(l: P.GroupLock, m: P.GroupLock, t: Thread) {
    || m == l
    || (t !in l.waiting && l.holder != Some(t) && m == l.(waiting := l.waiting + {t}))
    || (t in l.waiting && l.holder.None? && m == P.GroupLock(Some(t), l.waiting - {t}))
    || (l.holder == Some(t) && m == l.(holder := None))
  }

  /** Only acquire is called: the two-level lock's own try variants are not modelled. */
  ghost predicate NoTry(s: Mcs.State) {
    forall t: Thread :: !Mcs.Pc(s, t).TryCas? && !(Mcs.Pc(s, t).ClearNext? && Mcs.Pc(s, t).try)
  }

  lemma HolderAfter(s: Mcs.State, t: Thread)
    requires Mcs.Inv(s)
    ensures Outside(s).holder == Some(t) <==> Mcs.Holding(Mcs.Pc(s, t))
  {
    if Mcs.Holding(Mcs.Pc(s, t)) { Mcs.HolderIsHead(s, t); }
  }

  /** An instruction moves only the stepping thread's control state. */
  lemma OnlyOneMoves(s: Mcs.State, t: Thread, u: Thread)
    requires u != t
    ensures Mcs.Pc(Mcs.Step(s, t, false), u) == Mcs.Pc(s, u)
  {
  }

  /** The holder changes only by the stepping thread's entering or leaving. */
  lemma HolderMoves(s: Mcs.State, t: Thread)
    requires Mcs.Inv(s)
    ensures var s' := Mcs.Step(s, t, false);
            var before, after := Mcs.Holding(Mcs.Pc(s, t)), Mcs.Holding(Mcs.Pc(s', t));
            && (before == after ==> Outside(s').holder == Outside(s).holder)
            && (before && !after ==> Outside(s).holder == Some(t) && Outside(s').holder.None?)
            && (!before && after ==> Outside(s).holder.None? && Outside(s').holder == Some(t))
  {
    var s' := Mcs.Step(s, t, false);
    Mcs.StepKeepsInv(s, t, false);
    HolderAfter(s, t);
    HolderAfter(s', t);
    hide Mcs.Inv, Mcs.Step, Mcs.Holding, Waiting;
    match Outside(s).holder {
      case Some(u) => HolderAfter(s, u); HolderAfter(s', u); if u != t { OnlyOneMoves(s, t, u); }
      case None =>
    }
    match Outside(s').holder {
      case Some(u) => HolderAfter(s, u); HolderAfter(s', u); if u != t { OnlyOneMoves(s, t, u); }
      case None =>
    }
  }

  lemma WaitingMoves(s: Mcs.State, t: Thread)
    ensures var s' := Mcs.Step(s, t, false);
            var before, after := Acquiring(Mcs.Pc(s, t)), Acquiring(Mcs.Pc(s', t));
            && (before == after ==> Waiting(s') == Waiting(s))
            && (before && !after ==> Waiting(s') == Waiting(s) - {t})
            && (!before && after ==> Waiting(s') == Waiting(s) + {t})
  {
    var s' := Mcs.Step(s, t, false);
    forall u: Thread | u != t ensures Mcs.Pc(s', u) == Mcs.Pc(s, u) { OnlyOneMoves(s, t, u); }
    hide Mcs.Step;
  }

  /** Phases of a thread: outside, acquiring, holding, in this cycle. */
  lemma Phases(s: Mcs.State, t: Thread)
    requires NoTry(s)
    ensures var pc, pc' := Mcs.Pc(s, t), Mcs.Pc(Mcs.Step(s, t, false), t);
            && (Acquiring(pc) ==> Acquiring(pc') || Mcs.Holding(pc'))
            && (Mcs.Holding(pc) ==> !Acquiring(pc'))
            && (!Acquiring(pc) && !Mcs.Holding(pc) ==> !Mcs.Holding(pc'))
            && !pc'.TryCas? && !(pc'.ClearNext? && pc'.try)
  {
  }

  /** Every instruction of the MCS lock is a move the two-level lock allows, or invisible to it. */
  lemma McsIsGroupLock(s: Mcs.State, t: Thread)
    requires Mcs.Inv(s) && NoTry(s)
    ensures GroupStep(Outside(s), Outside(Mcs.Step(s, t, false)), t) && NoTry(Mcs.Step(s, t, false))
  {
    var s' := Mcs.Step(s, t, false);
    Phases(s, t);
    HolderMoves(s, t);
    WaitingMoves(s, t);
    HolderAfter(s, t);
    hide Mcs.Inv;
    assert NoTry(s') by {
      forall u: Thread | u != t ensures Mcs.Pc(s', u) == Mcs.Pc(s, u) { OnlyOneMoves(s, t, u); }
      hide Mcs.Step;
    }
    hide Mcs.Step, NoTry, Mcs.Holding, Acquiring;
  }

  /** When nowaiters denies an empty line, some thread is indeed inside acquire. */
  lemma NowaitersIsHonest(s: Mcs.State, t: Thread)
    requires Mcs.Inv(s) && Mcs.Holding(Mcs.Pc(s, t)) && !Mcs.Nowaiters(s, t)
    ensures Outside(s).waiting != {}
  {
    Mcs.HolderIsHead(s, t);
    Mcs.NowaitersVersusQueue(s, t);
    assert Mcs.WaitsBehind(s, s.queue[0], s.queue[1]);
    assert s.queue[1] in Waiting(s);
  }
}
