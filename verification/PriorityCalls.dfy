/**
 What callers of the two-level lock get: an acquire comes back only with the lock, taken for the class it
 was called for; and the high class keeps the filter while one of its threads is known to wait.
 */
module PriorityCalls {
  import opened Cells
  import opened PriorityLock

  // ---------------------------------------------------------------- calls

  /** The acquire a thread is in or made last: its class, whether the thread has entered since, and how many
      instructions it has executed other than spin retries. */
  datatype Call = Call(g: Group, entered: bool, steps: nat)

  function LastCall(schedule: seq<Turn>, t: Thread): Option<Call> {
    if schedule == [] then None
    else
      var before, u := schedule[..|schedule| - 1], schedule[|schedule| - 1];
      var k := LastCall(before, t);
      if u.t != t then k
      else if Pc(Run(before), t).Idle? then Some(Call(u.g, false, 0))
      else if k.None? then None
      else Some(CallOn(k.value, Run(before), Run(schedule), t))
  }

  /** One more instruction of `t`, from `s` to `s'`. */
  function CallOn(k: Call, s: State, s': State, t: Thread): Call {
    Call(k.g, k.entered || Pc(s', t).Critical?, if s' == s then k.steps else k.steps + 1)
  }

  /** How many instructions a thread has at most ahead of it, not counting those of the group locks. */
  function Rank(pc: PC): nat {
    match pc
    case Idle => 0
    case Await(_) => 11
    case ReadStraight => 10
    case TakeTicket(_) => 9
    case SpinTicket(_, _) => 8
    case SetStraight => 7
    case SetLowAcq => 7
    case Critical(_) => 6
    case ReadLowAcq(_) => 5
    case AskWaiters => 4
    case ClearStraight => 3
    case ClearLowAcq => 3
    case FilterRelease(_) => 2
    case GroupRelease(_) => 1
  }

  /** Where a thread is in its call: it waits for, holds and gives back the lock of the class it called for. */
  predicate CallAt(pc: PC, k: Call) {
    match pc
    case Idle => k.entered
    case Await(g) => g == k.g && !k.entered
    case _ => Holding(pc) == Some(k.g) && (k.entered <==> !Entering(pc))
  }

  predicate Entering(pc: PC) {
    pc.ReadStraight? || pc.TakeTicket? || pc.SpinTicket? || pc.SetStraight? || pc.SetLowAcq?
  }

  lemma EnteringOn(s: State, u: Turn)
    requires !Pc(s, u.t).Idle? && !Pc(s, u.t).Await?
    ensures Entering(Pc(s, u.t)) ==> Entering(Pc(Step(s, u), u.t)) || Pc(Step(s, u), u.t).Critical?
    ensures !Entering(Pc(s, u.t)) ==> !Entering(Pc(Step(s, u), u.t)) && !Pc(Step(s, u), u.t).Critical?
  {
  }

  lemma StepDrops(s: State, u: Turn)
    requires !Pc(s, u.t).Idle?
    ensures Step(s, u) == s || Rank(Pc(Step(s, u), u.t)) < Rank(Pc(s, u.t))
  {
    match Pc(s, u.t)
    case Await(_) => return;
    case SpinTicket(_, _) => return;
    case ReadLowAcq(_) => return;
    case AskWaiters => return;
    case _ => return;
  }

  /** One instruction of a thread inside its call. */
  lemma OwnCall(s: State, u: Turn, k: Call)
    requires Inv(s) && !Pc(s, u.t).Idle? && CallAt(Pc(s, u.t), k)
    ensures CallAt(Pc(Step(s, u), u.t), CallOn(k, s, Step(s, u), u.t))
  {
    hide Inv;
    if Pc(s, u.t).Await? || Pc(s, u.t).GroupRelease? { return; }
    KeepsLocks(s, u);
    EnteringOn(s, u);
    hide Step;
  }

  ghost predicate CallKnown(schedule: seq<Turn>, t: Thread) {
    match LastCall(schedule, t)
    case None => Pc(Run(schedule), t).Idle?
    case Some(k) => CallAt(Pc(Run(schedule), t), k) && k.steps + Rank(Pc(Run(schedule), t)) <= 11
  }

  lemma {:induction false} RunKeepsCall(schedule: seq<Turn>, t: Thread)
    ensures CallKnown(schedule, t)
  {
    if schedule != [] {
      var before, u := schedule[..|schedule| - 1], schedule[|schedule| - 1];
      var s := Run(before);
      RunKeepsCall(before, t);
      RunKeepsInv(before);
      assert Pc(s, u.t).Idle? ==> Pc(Step(s, u), u.t) == Await(u.g);
      hide Inv, Step;
      if u.t != t {
        OnlyOneMoves(s, u, t);
      } else if !Pc(s, t).Idle? {
        hide CallAt, Rank;
        OwnCall(s, u, LastCall(before, t).value);
        StepDrops(s, u);
      }
    }
  }

  /** An acquire is over only after its thread has been in the critical section, and it has been there for
      the class of the call.  Besides spin retries and the insides of the group locks it executes at most
      11 instructions up to the end of its release. */
  lemma AcquireEnters(schedule: seq<Turn>, t: Thread)
    requires LastCall(schedule, t).Some?
    ensures Pc(Run(schedule), t).Idle? ==> LastCall(schedule, t).value.entered
    ensures Pc(Run(schedule), t).Critical? ==> Pc(Run(schedule), t).g == LastCall(schedule, t).value.g
    ensures LastCall(schedule, t).value.steps <= 11
  {
    RunKeepsCall(schedule, t);
  }

  // ---------------------------------------------------------------- the filter stays with the high class

  ghost predicate NobodyInside(s: State) { forall t: Thread :: !Pc(s, t).Critical? }

  /** The high class has kept the filter for a thread that waits for the high lock, or has just got it. */
  predicate KeptForHigh(s: State) {
    && s.straight
    && (HolderAt(s, High).ReadStraight? || (HolderAt(s, High).GroupRelease? && s.high.waiting != {}))
  }

  /** The holder of the high lock asks and is told that someone waits: it keeps the filter. */
  lemma AskingKeeps(s: State, u: Turn)
    requires Inv(s) && Pc(s, u.t).AskWaiters? && !u.overlook && s.high.waiting != {}
    ensures KeptForHigh(Step(s, u))
  {
    ActingHolder(s, u.t);
  }

  /** While the filter is kept nobody is inside, and only a high thread can enter. */
  lemma KeptIsEmpty(s: State, t: Thread)
    requires Inv(s) && KeptForHigh(s)
    ensures !Pc(s, t).Critical?
  {
    if Pc(s, t).Critical? { ActingHolder(s, t); }
  }

  lemma HighStepKeeps(s: State, u: Turn)
    requires Inv(s) && KeptForHigh(s) && Holding(Pc(s, u.t)) == Some(High)
    ensures KeptForHigh(Step(s, u)) || Pc(Step(s, u), u.t) == Critical(High)
  {
    ActingHolder(s, u.t);
    hide Inv;
  }

  lemma LowStepKeeps(s: State, u: Turn)
    requires Inv(s) && KeptForHigh(s) && Holding(Pc(s, u.t)) == Some(Low)
    ensures KeptForHigh(Step(s, u))
  {
    ActingHolder(s, u.t);
    var s' := Step(s, u);
    LowLeavesHigh(s, u);
    if s.high.holder.Some? { assert HolderPc(s, s.high.holder.value, High); OnlyOneMoves(s, u, s.high.holder.value); }
    hide Inv, Step;
  }

  lemma LowLeavesHigh(s: State, u: Turn)
    requires Inv(s) && KeptForHigh(s) && Holding(Pc(s, u.t)) == Some(Low)
    ensures Step(s, u).high == s.high && Step(s, u).straight == s.straight
  {
    if Pc(s, u.t).ReadLowAcq? { ReleasesOwnGroup(s, u.t); }
    hide Inv;
  }

  lemma FreeStepKeeps(s: State, u: Turn)
    requires Inv(s) && KeptForHigh(s) && Holding(Pc(s, u.t)).None?
    ensures KeptForHigh(Step(s, u))
  {
    assert HolderPc(s, u.t, High) && HolderPc(s, u.t, Low);
    if s.high.holder.Some? { assert HolderPc(s, s.high.holder.value, High); }
    hide Inv;
  }

  lemma KeptOn(s: State, u: Turn)
    requires Inv(s) && KeptForHigh(s)
    ensures KeptForHigh(Step(s, u)) || Pc(Step(s, u), u.t) == Critical(High)
  {
    hide Inv, Step, KeptForHigh;
    match Holding(Pc(s, u.t))
    case None => FreeStepKeeps(s, u);
    case Some(High) => HighStepKeeps(s, u);
    case Some(Low) => LowStepKeeps(s, u);
  }

  lemma RunExtends(schedule: seq<Turn>, u: Turn)
    ensures Run(schedule + [u]) == Step(Run(schedule), u)
  {
    assert (schedule + [u])[..|schedule|] == schedule;
    hide Step;
  }

  /** As long as nobody is inside, the filter is kept. */
  lemma {:induction false} KeptWhileEmpty(start: seq<Turn>, later: seq<Turn>)
    requires KeptForHigh(Run(start))
    requires forall k: nat :: k <= |later| ==> NobodyInside(Run(start + later[..k]))
    ensures KeptForHigh(Run(start + later))
  {
    hide Run, Step, KeptForHigh, Inv;
    if later == [] {
      assert start + later == start;
    } else {
      var n := |later| - 1;
      var before, u := start + later[..n], later[n];
      forall k: nat | k <= n ensures NobodyInside(Run(start + later[..n][..k])) {
        assert later[..n][..k] == later[..k] && NobodyInside(Run(start + later[..k]));
      }
      KeptWhileEmpty(start, later[..n]);
      assert before + [u] == start + later && later[..n + 1] == later;
      RunExtends(before, u);
      RunKeepsInv(before);
      assert NobodyInside(Run(start + later[..n + 1]));
      KeptOn(Run(before), u);
    }
  }

  /** From the moment the releasing high thread is told that a high thread waits, the next thread to enter
      the critical section is a high one. */
  lemma NextIsHigh(before: seq<Turn>, u: Turn, later: seq<Turn>, v: Turn)
    requires Pc(Run(before), u.t).AskWaiters? && !u.overlook && Run(before).high.waiting != {}
    requires forall k: nat :: k <= |later| ==> NobodyInside(Run(before + [u] + later[..k]))
    requires Pc(Run(before + [u] + later + [v]), v.t).Critical?
    ensures Pc(Run(before + [u] + later + [v]), v.t) == Critical(High)
  {
    hide Run, Step, KeptForHigh, Inv;
    RunKeepsInv(before);
    RunExtends(before, u);
    AskingKeeps(Run(before), u);
    KeptWhileEmpty(before + [u], later);
    RunExtends(before + [u] + later, v);
    RunKeepsInv(before + [u] + later);
    RunKeepsInv(before + [u] + later + [v]);
    KeptOn(Run(before + [u] + later), v);
    if KeptForHigh(Run(before + [u] + later + [v])) { KeptIsEmpty(Run(before + [u] + later + [v]), v.t); }
  }
}
