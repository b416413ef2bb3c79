/**
 What callers of zm_mcsp get: an acquire comes back only with the lock, for its class; and a releasing
 high thread that sees a successor linked behind it is followed by that very successor.
 */
module McspCalls {
  import opened Cells
  import opened Mcsp
  import Mcs
  import G = McsGroup
  import P = PriorityLock
  import C = PriorityCalls
  import M = McsCalls

  // ---------------------------------------------------------------- calls

  /** The acquire a thread is in or made last. */
  function LastCall(schedule: seq<Turn>, t: Thread): Option<C.Call> {
    if schedule == [] then None
    else
      var before, u := schedule[..|schedule| - 1], schedule[|schedule| - 1];
      var k := LastCall(before, t);
      if u.t != t then k
      else if Pc(Run(before), t).Idle? then Some(C.Call(u.g, false, 0))
      else if k.None? then None
      else Some(CallOn(k.value, Run(before), Run(schedule), t))
  }

  /** One more instruction of `t`, from `s` to `s'`. */
  function CallOn(k: C.Call, s: State, s': State, t: Thread): C.Call {
    C.Call(k.g, k.entered || Pc(s', t).Critical?, if s' == s then k.steps else k.steps + 1)
  }

  /** How many instructions a thread has at most ahead of it, those of the MCS locks included. */
  function Rank(s: State, t: Thread): nat {
    match Pc(s, t)
    case Await(g) => 9 + M.Rank(Mcs.Pc(LockOf(s, g), t))
    case GroupRelease(g) => M.Rank(Mcs.Pc(LockOf(s, g), t))
    case Idle => 0
    case pc => C.Rank(pc) + 6
  }

  ghost predicate CallKnown(schedule: seq<Turn>, t: Thread) {
    match LastCall(schedule, t)
    case None => Pc(Run(schedule), t).Idle?
    case Some(k) => C.CallAt(Pc(Run(schedule), t), k) && k.steps + Rank(Run(schedule), t) <= 21
  }

  lemma OwnCall(s: State, t: Thread, g: P.Group, k: C.Call)
    requires Inv(s) && !Pc(s, t).Idle? && C.CallAt(Pc(s, t), k)
    ensures C.CallAt(Pc(Step(s, t, g), t), CallOn(k, s, Step(s, t, g), t))
  {
    StepRefines(s, t, g);
    C.OwnCall(Outside(s), OuterTurn(s, t, g), k);
    assert Outside(Step(s, t, g)) == Outside(s) ==> Pc(Step(s, t, g), t) == Pc(s, t);
    hide Inv, Step, P.Step, G.Outside;
  }

  lemma InnerDrops(l: Mcs.State, t: Thread)
    requires !Mcs.Pc(l, t).Idle?
    ensures Mcs.Step(l, t, false) == l || M.Rank(Mcs.Pc(Mcs.Step(l, t, false), t)) < M.Rank(Mcs.Pc(l, t))
  {
    match Mcs.Pc(l, t)
    case SwapLock => return;
    case SpinStatus => return;
    case TryCas => return;
    case ReleaseCas => return;
    case SpinNext => return;
    case FetchNext => return;
    case _ => return;
  }

  lemma AwaitDrops(s: State, t: Thread, g: P.Group)
    requires Inv(s) && Pc(s, t).Await?
    ensures Step(s, t, g) == s || Rank(Step(s, t, g), t) < Rank(s, t)
  {
    var h := Pc(s, t).g;
    assert Tied(s, t, h);
    InnerDrops(LockOf(s, h), t);
    hide Inv, Mcs.Step, G.Outside, M.Rank;
  }

  lemma LeaveDrops(s: State, t: Thread, g: P.Group)
    requires Inv(s) && Pc(s, t).GroupRelease?
    ensures Step(s, t, g) == s || Rank(Step(s, t, g), t) < Rank(s, t)
  {
    var h := Pc(s, t).g;
    assert Tied(s, t, h);
    InnerDrops(LockOf(s, h), t);
    hide Inv, Mcs.Step, G.Outside;
  }

  lemma RankOutside(s: State, t: Thread)
    requires !Pc(s, t).Await?
    requires Pc(s, t).GroupRelease? ==> Mcs.Pc(LockOf(s, Pc(s, t).g), t).Critical?
    ensures Pc(s, t).Idle? || Rank(s, t) == C.Rank(Pc(s, t)) + 6
  {
  }

  /** An instruction on the words of the two-level lock itself. */
  lemma LocalStep(s: State, t: Thread, g: P.Group)
    requires !InLock(Pc(s, t))
    ensures Step(s, t, g).high == s.high && Step(s, t, g).low == s.low && !Pc(Step(s, t, g), t).Await?
    ensures C.Rank(Pc(Step(s, t, g), t)) < C.Rank(Pc(s, t)) || Step(s, t, g) == s
  {
    C.StepDrops(s.outer, P.Turn(t, g, false));
    hide Mcs.Nowaiters;
    match Pc(s, t)
    case SpinTicket(_, _) => return;
    case AskWaiters => return;
    case _ => return;
  }

  lemma LocalDrops(s: State, t: Thread, g: P.Group)
    requires Inv(s) && !InLock(Pc(s, t))
    ensures Rank(Step(s, t, g), t) < Rank(s, t) || Step(s, t, g) == s
  {
    LocalStep(s, t, g);
    LocalFollows(s, t, g);
    assert Tied(s, t, P.High) && Tied(s, t, P.Low);
    hide Inv, Step, P.Step, G.Outside, Rank, C.Rank;
    RankOutside(s, t);
    RankOutside(Step(s, t, g), t);
  }

  /** Every instruction of a thread inside its call is a spin retry or brings the call nearer to its end. */
  lemma StepDrops(s: State, t: Thread, g: P.Group)
    requires Inv(s) && !Pc(s, t).Idle?
    ensures Step(s, t, g) == s || Rank(Step(s, t, g), t) < Rank(s, t)
  {
    hide Inv, Step, Rank;
    if Pc(s, t).Await? {
      AwaitDrops(s, t, g);
    } else if Pc(s, t).GroupRelease? {
      LeaveDrops(s, t, g);
    } else {
      LocalDrops(s, t, g);
    }
  }

  lemma OthersRank(s: State, x: Thread, g: P.Group, t: Thread)
    requires x != t
    ensures Pc(Step(s, x, g), t) == Pc(s, t) && Rank(Step(s, x, g), t) == Rank(s, t)
  {
    OthersStay(s, x, g, t, P.High);
    OthersStay(s, x, g, t, P.Low);
    hide Step;
  }

  lemma CallStarts(s: State, t: Thread, g: P.Group)
    requires Pc(s, t).Idle?
    requires Mcs.Pc(LockOf(s, g), t).Idle?
    ensures Pc(Step(s, t, g), t) == P.Await(g) && Rank(Step(s, t, g), t) == 21
  {
  }

  lemma {:induction false} RunKeepsCall(schedule: seq<Turn>, t: Thread)
    ensures CallKnown(schedule, t)
  {
    if schedule != [] {
      var before, u := schedule[..|schedule| - 1], schedule[|schedule| - 1];
      var s := Run(before);
      RunKeepsCall(before, t);
      RunKeepsInv(before);
      assert Tied(s, t, u.g);
      hide Inv, Step, Rank;
      if u.t != t {
        OthersRank(s, u.t, u.g, t);
      } else if Pc(s, t).Idle? {
        CallStarts(s, t, u.g);
      } else {
        hide C.CallAt;
        OwnCall(s, t, u.g, LastCall(before, t).value);
        StepDrops(s, t, u.g);
      }
    }
  }

  /** An acquire of zm_mcsp is over only after its thread has been in the critical section, and it has been
      there for the class of the call.  Besides spin retries it executes at most 21 instructions up to the end
      of its release. */
  lemma AcquireEnters(schedule: seq<Turn>, t: Thread)
    requires LastCall(schedule, t).Some?
    ensures Pc(Run(schedule), t).Idle? ==> LastCall(schedule, t).value.entered
    ensures Pc(Run(schedule), t).Critical? ==> Pc(Run(schedule), t).g == LastCall(schedule, t).value.g
    ensures LastCall(schedule, t).value.steps <= 21
  {
    RunKeepsCall(schedule, t);
  }

  // ---------------------------------------------------------------- the successor is next

  /** The high lock goes from `t`, which is giving it back, to `u`; `u` has not entered yet. */
  predicate HandsOver(s: State, t: Thread, u: Thread) {
    && C.KeptForHigh(Outside(s)) && s.high.queue != []
    && (Pc(s, u) == P.Await(P.High) || Pc(s, u).ReadStraight?)
    && (|| s.high.queue[0] == u
        || (s.high.queue[0] == t && Pc(s, t) == P.GroupRelease(P.High) && |s.high.queue| > 1 && s.high.queue[1] == u))
  }

  /** The node linked behind the holder is the second in the queue, and its thread is waiting. */
  lemma LinkedIsSecond(l: Mcs.State, t: Thread, u: Thread)
    requires Mcs.Inv(l) && Mcs.Holding(Mcs.Pc(l, t)) && Mcs.Next(l, t) == Some(u)
    ensures |l.queue| > 1 && l.queue[0] == t && l.queue[1] == u && G.Acquiring(Mcs.Pc(l, u))
  {
    Mcs.HolderIsHead(l, t);
    Mcs.NowaitersVersusQueue(l, t);
    assert Mcs.WaitsBehind(l, l.queue[0], l.queue[1]);
    hide Mcs.Inv;
  }

  lemma AskingHandsOver(s: State, t: Thread, g: P.Group, u: Thread)
    requires Inv(s) && Pc(s, t).AskWaiters? && Mcs.Next(s.high, t) == Some(u)
    ensures HandsOver(Step(s, t, g), t, u)
  {
    assert Tied(s, t, P.High) && Tied(s, u, P.High);
    LinkedIsSecond(s.high, t, u);
    G.NowaitersIsHonest(s.high, t);
    C.AskingKeeps(Outside(s), OuterTurn(s, t, g));
    StepRefines(s, t, g);
    assert Pc(Step(s, t, g), t) == P.GroupRelease(P.High) && Step(s, t, g).high == s.high
           && Pc(Step(s, t, g), u) == Pc(s, u);
    hide Inv, Step, P.Step, G.Outside, C.KeptForHigh;
    assert Outside(Step(s, t, g)) != Outside(s);
  }

  /** What an instruction does to the front of the queue. */
  lemma FrontMoves(l: Mcs.State, x: Thread)
    requires Mcs.Inv(l) && l.queue != []
    ensures var q := Mcs.Step(l, x, false).queue;
            || (q != [] && q[0] == l.queue[0] && (|l.queue| > 1 ==> |q| > 1 && q[1] == l.queue[1]))
            || (Mcs.Holding(Mcs.Pc(l, x)) && x == l.queue[0] && !Mcs.Pc(l, x).Critical?
                && (|l.queue| > 1 ==> q == l.queue[1..]))
  {
    if Mcs.Holding(Mcs.Pc(l, x)) { Mcs.HolderIsHead(l, x); }
    hide Mcs.Inv;
    match Mcs.Pc(l, x)
    case SwapLock => return;
    case TryCas => return;
    case ReleaseCas => return;
    case Handoff(_) => return;
    case _ => return;
  }

  /** The two-level lock keeps the filter for the high class, or a high thread enters. */
  lemma StaysKept(s: State, x: Thread, g: P.Group)
    requires Inv(s) && C.KeptForHigh(Outside(s))
    ensures C.KeptForHigh(Outside(Step(s, x, g))) || Pc(Step(s, x, g), x) == P.Critical(P.High)
  {
    StepRefines(s, x, g);
    hide Inv, Step, C.KeptForHigh, P.Step;
    C.KeptOn(Outside(s), OuterTurn(s, x, g));
  }

  /** Who enters while the lock is handed over is the successor. */
  lemma SuccessorEnters(s: State, x: Thread, g: P.Group, t: Thread, u: Thread)
    requires Inv(s) && HandsOver(s, t, u) && Pc(Step(s, x, g), x).Critical?
    ensures x == u
  {
    StaysInGroup(s, x, g);
    C.KeptIsEmpty(Outside(s), x);
    assert Tied(s, x, P.High);
    if P.Holding(Pc(s, x)) == Some(P.High) { P.ActingHolder(Outside(s), x); }
    if P.Holding(Pc(s, x)) == Some(P.Low) { LowWaits(s, x, g); }
    if Mcs.Pc(s.high, x).Critical? { Mcs.HolderIsHead(s.high, x); }
    hide Inv, Step, P.Step, G.Outside;
  }

  /** Nobody enters straight from outside the group locks, and nobody but the holder of one at all. */
  lemma StaysInGroup(s: State, x: Thread, g: P.Group)
    requires Pc(Step(s, x, g), x).Critical?
    ensures P.Holding(Pc(s, x)).Some? && !Pc(s, x).GroupRelease?
  {
    hide Mcs.Step, G.Outside, Mcs.Nowaiters;
    match Pc(s, x)
    case Idle => return;
    case Await(_) => return;
    case GroupRelease(_) => return;
    case AskWaiters => return;
    case _ => return;
  }

  lemma LowWaits(s: State, x: Thread, g: P.Group)
    requires Inv(s) && C.KeptForHigh(Outside(s)) && P.Holding(Pc(s, x)) == Some(P.Low)
    ensures !Pc(Step(s, x, g), x).Critical?
  {
    StepRefines(s, x, g);
    C.KeptOn(Outside(s), OuterTurn(s, x, g));
    OuterKeepsInv(s, x, g);
    C.LowStepKeeps(Outside(s), OuterTurn(s, x, g));
    if C.KeptForHigh(Outside(Step(s, x, g))) { C.KeptIsEmpty(Outside(Step(s, x, g)), x); }
    hide Inv, Step, P.Step, G.Outside;
  }

  /** The high MCS lock is left alone, or executes an instruction of a thread that asks for it or gives it back. */
  lemma HighMoves(s: State, x: Thread, g: P.Group)
    ensures Step(s, x, g).high == s.high
            || (Step(s, x, g).high == Mcs.Step(s.high, x, false) && (Pc(s, x) == P.Await(P.High)
                || Pc(s, x) == P.GroupRelease(P.High) || Pc(s, x).Idle?))
  {
    hide Mcs.Step, P.Step, Mcs.Nowaiters, G.Outside;
    match Pc(s, x)
    case Idle => return;
    case Await(_) => return;
    case GroupRelease(_) => return;
    case AskWaiters => return;
    case _ => return;
  }

  /** The successor goes from waiting to having the high lock, and from there only into the critical section. */
  lemma SuccessorMoves(s: State, x: Thread, g: P.Group, t: Thread, u: Thread)
    requires Inv(s) && HandsOver(s, t, u) && !Pc(Step(s, x, g), x).Critical?
    ensures Pc(Step(s, x, g), u) == P.Await(P.High) || Pc(Step(s, x, g), u).ReadStraight?
  {
    if x != u { OthersStay(s, x, g, u, P.High); hide Inv, Step; return; }
    hide Inv, Mcs.Step, G.Outside;
  }

  /** Who gives the high lock back while it is handed over is not the successor. */
  lemma LeaverIsOld(s: State, x: Thread, t: Thread, u: Thread)
    requires Inv(s) && HandsOver(s, t, u) && x == s.high.queue[0]
    requires Mcs.Holding(Mcs.Pc(s.high, x)) && !Mcs.Pc(s.high, x).Critical?
    ensures x == t && s.high.queue[0] == t && |s.high.queue| > 1 && s.high.queue[1] == u
  {
    assert Tied(s, x, P.High);
    hide Inv, G.Outside, C.KeptForHigh;
  }

  /** While `t` is still the front it is still giving the lock back. */
  lemma StillLeaving(s: State, x: Thread, g: P.Group, t: Thread)
    requires Inv(s) && Pc(s, t) == P.GroupRelease(P.High) && t in Step(s, x, g).high.queue
    ensures Pc(Step(s, x, g), t) == P.GroupRelease(P.High)
  {
    if x != t { OthersStay(s, x, g, t, P.High); hide Inv, Step; return; }
    Mcs.StepKeepsInv(s.high, t, false);
    StillEnqueued(Mcs.Step(s.high, t, false), t);
    hide Inv, Mcs.Inv, Mcs.Step, G.Outside;
  }

  lemma StillEnqueued(l: Mcs.State, t: Thread)
    requires Mcs.Inv(l) && t in l.queue
    ensures !Mcs.Pc(l, t).Idle?
  {
    assert Mcs.Enqueued(Mcs.Pc(l, t));
  }

  lemma FrontStays(s: State, x: Thread, g: P.Group, t: Thread, u: Thread)
    requires Inv(s) && HandsOver(s, t, u)
    ensures var q := Step(s, x, g).high.queue;
            q != [] && (q[0] == u || (q[0] == t && Pc(Step(s, x, g), t) == P.GroupRelease(P.High) && |q| > 1
                && q[1] == u))
  {
    var q := Step(s, x, g).high.queue;
    HighMoves(s, x, g);
    FrontMoves(s.high, x);
    if Mcs.Holding(Mcs.Pc(s.high, x)) && x == s.high.queue[0] && !Mcs.Pc(s.high, x).Critical? {
      LeaverIsOld(s, x, t, u);
    }
    if s.high.queue[0] == t && q != [] && q[0] == t && Pc(s, t) == P.GroupRelease(P.High) { StillLeaving(s, x, g, t); }
    hide Inv, Step, Mcs.Step, Mcs.Inv, G.Outside, C.KeptForHigh;
  }

  lemma HandsOverOn(s: State, x: Thread, g: P.Group, t: Thread, u: Thread)
    requires Inv(s) && HandsOver(s, t, u) && !Pc(Step(s, x, g), x).Critical?
    ensures HandsOver(Step(s, x, g), t, u)
  {
    StaysKept(s, x, g);
    SuccessorMoves(s, x, g, t, u);
    FrontStays(s, x, g, t, u);
    hide Inv, Step, G.Outside, C.KeptForHigh;
  }

  // ---------------------------------------------------------------- over runs

  ghost predicate NobodyInside(s: State) { forall x: Thread :: !Pc(s, x).Critical? }

  lemma RunExtends(schedule: seq<Turn>, u: Turn)
    ensures Run(schedule + [u]) == Step(Run(schedule), u.t, u.g)
  {
    assert (schedule + [u])[..|schedule|] == schedule;
    hide Step;
  }

  lemma {:induction false} HandedWhileEmpty(start: seq<Turn>, later: seq<Turn>, t: Thread, u: Thread)
    requires HandsOver(Run(start), t, u)
    requires forall k: nat :: k <= |later| ==> NobodyInside(Run(start + later[..k]))
    ensures HandsOver(Run(start + later), t, u)
  {
    hide Run, Step, HandsOver, Inv;
    if later == [] {
      assert start + later == start;
    } else {
      var n := |later| - 1;
      var before, v := start + later[..n], later[n];
      forall k: nat | k <= n ensures NobodyInside(Run(start + later[..n][..k])) {
        assert later[..n][..k] == later[..k] && NobodyInside(Run(start + later[..k]));
      }
      HandedWhileEmpty(start, later[..n], t, u);
      assert before + [v] == start + later && later[..n + 1] == later;
      RunExtends(before, v);
      RunKeepsInv(before);
      assert NobodyInside(Run(start + later[..n + 1]));
      HandsOverOn(Run(before), v.t, v.g, t, u);
    }
  }

  /** A releasing high thread that reads a successor `u` behind its node when it asks for waiters is followed
      by `u`: it is the next thread to enter the critical section, of either class. */
  lemma NextIsSuccessor(before: seq<Turn>, t: Thread, g: P.Group, u: Thread, later: seq<Turn>, v: Turn)
    requires Pc(Run(before), t).AskWaiters? && Mcs.Next(Run(before).high, t) == Some(u)
    requires forall k: nat :: k <= |later| ==> NobodyInside(Run(before + [Turn(t, g)] + later[..k]))
    requires Pc(Run(before + [Turn(t, g)] + later + [v]), v.t).Critical?
    ensures v.t == u && Pc(Run(before + [Turn(t, g)] + later + [v]), u) == P.Critical(P.High)
  {
    hide Run, Step, HandsOver, Inv;
    var start := before + [Turn(t, g)];
    RunKeepsInv(before);
    RunExtends(before, Turn(t, g));
    AskingHandsOver(Run(before), t, g, u);
    HandedWhileEmpty(start, later, t, u);
    RunKeepsInv(start + later);
    RunExtends(start + later, v);
    SuccessorEnters(Run(start + later), v.t, v.g, t, u);
    EntersAsHigh(Run(start + later), v.g, t, u);
  }

  lemma EntersAsHigh(s: State, g: P.Group, t: Thread, u: Thread)
    requires HandsOver(s, t, u) && Pc(Step(s, u, g), u).Critical?
    ensures Pc(Step(s, u, g), u) == P.Critical(P.High)
  {
    hide Mcs.Step, G.Outside, C.KeptForHigh;
  }
}
