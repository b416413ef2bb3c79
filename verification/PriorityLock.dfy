/**
 The two-level priority lock of zm_mcsp.c and zm_tlp.c: a high and a low group, each behind a lock of
 its own, meet at a ticket lock, the filter.  Every instruction is one step.  The group locks are any
 mutual exclusion locks whose nowaiters never denies an absence of waiters; the MCS lock is one
 (Mcs.MutualExclusion, Mcs.NowaitersVersusQueue).
 */
module PriorityLock {
  import opened Cells

  type Thread = nat
  datatype Group = High | Low

  const WRAP := 0x1_0000_0000  // the filter's counters are 32-bit unsigned

  datatype PC =
    | Idle
    | Await(g: Group)              // inside the acquire of the group's lock
    | ReadStraight                 // if !go_straight
    | TakeTicket(g: Group)         // my_ticket := fetch_add(next_ticket, 1)
    | SpinTicket(g: Group, my: int)// while now_serving != my_ticket
    | SetStraight                  // go_straight := 1
    | SetLowAcq                    // low_p_acq := 1
    | Critical(g: Group)
    | ReadLowAcq(g: Group)         // release: if !low_p_acq
    | AskWaiters                   // if nowaiters(high_p)
    | ClearStraight                // go_straight := 0
    | ClearLowAcq                  // low_p_acq := 0
    | FilterRelease(g: Group)      // fetch_add(now_serving, 1)
    | GroupRelease(g: Group)       // release of the group's lock

  /** One group's lock: its holder and the threads inside its acquire. */
  datatype GroupLock = GroupLock(holder: Option<Thread>, waiting: set<Thread>)

  /**
   `line` and `lows` are history variables: the groups with an outstanding filter ticket, in ticket
   order, and the low critical sections entered since a high thread last took a ticket.
   */
  datatype State = State(high: GroupLock, low: GroupLock, next: int, serving: int, straight: bool, lowAcq: bool,
                         pc: map<Thread, PC>, line: seq<Group>, lows: nat)

  const FREE := GroupLock(None, {})
  const INIT := State(FREE, FREE, 0, 0, false, false, map[], [], 0)

  function Pc(s: State, t: Thread): PC { At(s.pc, t, Idle) }
  function LockOf(s: State, g: Group): GroupLock { if g.High? then s.high else s.low }
  function WithLock(s: State, g: Group, l: GroupLock): State { if g.High? then s.(high := l) else s.(low := l) }
  function Goto(s: State, t: Thread, pc: PC): State { s.(pc := s.pc[t := pc]) }

  /** The scheduler's choices: who runs, which group an idle thread acquires in, and whether nowaiters
      overlooks waiters. */
  datatype Turn = Turn(t: Thread, g: Group, overlook: bool)

  function Step(s: State, u: Turn): State {
    var t := u.t;
    match Pc(s, t)
    case Idle => Goto(WithLock(s, u.g, LockOf(s, u.g).(waiting := LockOf(s, u.g).waiting + {t})), t, Await(u.g))
    case Await(g) =>
      if LockOf(s, g).holder.Some? then s
      else Goto(WithLock(s, g, GroupLock(Some(t), LockOf(s, g).waiting - {t})), t,
                if g.High? then ReadStraight else TakeTicket(Low))
    case ReadStraight => Goto(s, t, if s.straight then Critical(High) else TakeTicket(High))
    case TakeTicket(g) =>
      Goto(s.(next := (s.next + 1) % WRAP, line := s.line + [g], lows := if g.High? then 0 else s.lows),
           t, SpinTicket(g, s.next))
    case SpinTicket(g, my) => if s.serving != my then s else Goto(s, t, if g.High? then SetStraight else SetLowAcq)
    case SetStraight => Goto(s.(straight := true), t, Critical(High))
    case SetLowAcq => Goto(s.(lowAcq := true, lows := s.lows + 1), t, Critical(Low))
    case Critical(g) => Goto(s, t, ReadLowAcq(g))
    case ReadLowAcq(_) => Goto(s, t, if s.lowAcq then ClearLowAcq else AskWaiters)
    case AskWaiters =>
      Goto(s, t, if u.overlook || s.high.waiting == {} then ClearStraight else GroupRelease(High))
    case ClearStraight => Goto(s.(straight := false), t, FilterRelease(High))
    case ClearLowAcq => Goto(s.(lowAcq := false), t, FilterRelease(Low))
    case FilterRelease(g) =>
      Goto(s.(serving := (s.serving + 1) % WRAP, line := if s.line == [] then [] else s.line[1..]), t, GroupRelease(g))
    case GroupRelease(g) => Goto(WithLock(s, g, LockOf(s, g).(holder := None)), t, Idle)
  }

  // ---------------------------------------------------------------- invariant

  /** The group whose lock a thread holds at an instruction. */
  function Holding(pc: PC): Option<Group> {
    match pc
    case Idle => None
    case Await(_) => None
    case ReadStraight => Some(High)
    case TakeTicket(g) => Some(g)
    case SpinTicket(g, _) => Some(g)
    case SetStraight => Some(High)
    case SetLowAcq => Some(Low)
    case Critical(g) => Some(g)
    case ReadLowAcq(g) => Some(g)
    case AskWaiters => Some(High)
    case ClearStraight => Some(High)
    case ClearLowAcq => Some(Low)
    case FilterRelease(g) => Some(g)
    case GroupRelease(g) => Some(g)
  }

  /** The thread has the filter to itself: its group is at the front of the line. */
  predicate Served(pc: PC) {
    pc.SetStraight? || pc.SetLowAcq? || pc.Critical? || pc.ReadLowAcq? || pc.AskWaiters? || pc.ClearStraight?
    || pc.ClearLowAcq? || pc.FilterRelease?
  }

  predicate HighOk(s: State, pc: PC) {
    && (Served(pc) ==> s.line != [] && s.line[0] == High)
    && (pc.SetStraight? || pc.FilterRelease? || pc.TakeTicket? || pc.SpinTicket? ==> !s.straight)
    && (pc.Critical? || pc.ReadLowAcq? || pc.AskWaiters? || pc.ClearStraight? ==> s.straight)
    && (High in s.line <==> s.straight || pc.SpinTicket? || pc.SetStraight? || pc.FilterRelease?)
    && (pc.GroupRelease? && s.straight ==> s.high.waiting != {})
    && (pc.SpinTicket? && s.line[0] == High ==> s.lows <= 1)
    && (pc.SetStraight? ==> s.lows <= 1)
  }

  predicate LowOk(s: State, pc: PC) {
    && (Served(pc) ==> s.line != [] && s.line[0] == Low)
    && (s.lowAcq <==> pc.Critical? || pc.ReadLowAcq? || pc.ClearLowAcq?)
    && (Low in s.line <==> pc.SpinTicket? || Served(pc))
    && (High in s.line && !s.straight && s.line[0] == Low ==>
          s.lows <= if pc.SpinTicket? || pc.SetLowAcq? then 0 else 1)
  }

  predicate TicketOk(s: State, pc: PC) {
    pc.SpinTicket? ==> pc.g in s.line && pc.my == (s.serving + (if s.line[0] == pc.g then 0 else 1)) % WRAP
  }

  predicate HolderPc(s: State, t: Thread, g: Group) {
    && (LockOf(s, g).holder == Some(t) <==> Holding(Pc(s, t)) == Some(g))
    && (t in LockOf(s, g).waiting <==> Pc(s, t) == Await(g))
  }

  /** The instruction the holder of a group's lock is at; GroupRelease stands for an absent holder. */
  function HolderAt(s: State, g: Group): PC {
    if LockOf(s, g).holder.Some? then Pc(s, LockOf(s, g).holder.value) else GroupRelease(g)
  }

  ghost predicate Inv(s: State) {
    && (forall t: Thread, g: Group :: HolderPc(s, t, g))
    && |s.line| <= 2 && (|s.line| == 2 ==> s.line[0] != s.line[1])
    && 0 <= s.serving < WRAP && s.next == (s.serving + |s.line|) % WRAP
    && (s.straight ==> s.line != [] && s.line[0] == High)
    && HighOk(s, HolderAt(s, High)) && LowOk(s, HolderAt(s, Low))
    && (forall t: Thread :: TicketOk(s, Pc(s, t)))
  }

  // ---------------------------------------------------------------- every instruction keeps the invariant

  /** What the stepping thread's instruction says about the holders. */
  lemma ActingHolder(s: State, t: Thread)
    requires Inv(s) && Holding(Pc(s, t)).Some?
    ensures var g := Holding(Pc(s, t)).value;
            LockOf(s, g).holder == Some(t) && HolderAt(s, g) == Pc(s, t)
                && LockOf(s, if g.High? then Low else High).holder != Some(t)
  {
    assert HolderPc(s, t, High) && HolderPc(s, t, Low);
  }

  /** The plain flag low_p_acq, read at release, names the releasing thread's own group. */
  lemma ReleasesOwnGroup(s: State, t: Thread)
    requires Inv(s) && Pc(s, t).ReadLowAcq?
    ensures s.lowAcq <==> Pc(s, t).g.Low?
  {
    ActingHolder(s, t);
  }

  lemma OnlyOneMoves(s: State, u: Turn, t: Thread)
    requires t != u.t
    ensures Pc(Step(s, u), t) == Pc(s, t)
  {
    match Pc(s, u.t)
    case Idle => return;
    case Await(_) => return;
    case ReadLowAcq(_) => return;
    case GroupRelease(_) => return;
    case _ => return;
  }

  /** Between entering and leaving a group's lock, an instruction touches neither lock. */
  lemma KeepsLocks(s: State, u: Turn)
    requires Inv(s) && !Pc(s, u.t).Idle? && !Pc(s, u.t).Await? && !Pc(s, u.t).GroupRelease?
    ensures var s' := Step(s, u);
            && s'.high == s.high && s'.low == s.low && Holding(Pc(s', u.t)) == Holding(Pc(s, u.t))
            && !Pc(s', u.t).Await?
  {
    if Pc(s, u.t).ReadLowAcq? { ReleasesOwnGroup(s, u.t); }
    hide Inv;
  }

  lemma EntryKeepsHolders(s: State, u: Turn, t: Thread, g: Group)
    requires HolderPc(s, t, g) && HolderPc(s, u.t, g)
    requires Pc(s, u.t).Idle? || Pc(s, u.t).Await? || Pc(s, u.t).GroupRelease?
    ensures HolderPc(Step(s, u), t, g)
  {
  }

  lemma StepKeepsHolders(s: State, u: Turn, t: Thread, g: Group)
    requires Inv(s)
    ensures HolderPc(Step(s, u), t, g)
  {
    assert HolderPc(s, t, g) && HolderPc(s, u.t, g);
    hide Inv, Step;
    if t != u.t { OnlyOneMoves(s, u, t); }
    if Pc(s, u.t).Idle? || Pc(s, u.t).Await? || Pc(s, u.t).GroupRelease? {
      EntryKeepsHolders(s, u, t, g);
    } else {
      KeepsLocks(s, u);
    }
  }

  /** The rest of the invariant speaks of the two holders only. */
  ghost predicate Core(s: State) {
    && |s.line| <= 2 && (|s.line| == 2 ==> s.line[0] != s.line[1])
    && 0 <= s.serving < WRAP && s.next == (s.serving + |s.line|) % WRAP
    && (s.straight ==> s.line != [] && s.line[0] == High)
    && HighOk(s, HolderAt(s, High)) && LowOk(s, HolderAt(s, Low))
  }

  lemma RequestKeepsCore(s: State, u: Turn)
    requires Inv(s) && Pc(s, u.t).Idle?
    ensures Core(Step(s, u))
  {
    assert HolderPc(s, u.t, High) && HolderPc(s, u.t, Low) && Core(s);
    hide Inv;
    if u.g.High? { return; }
  }

  lemma EnterKeepsCore(s: State, u: Turn)
    requires Inv(s) && Pc(s, u.t).Await?
    ensures Core(Step(s, u))
  {
    assert HolderPc(s, u.t, High) && HolderPc(s, u.t, Low) && Core(s);
    hide Inv;
    if Pc(s, u.t).g.High? { return; }
  }

  lemma LeaveKeepsCore(s: State, u: Turn)
    requires Inv(s) && Pc(s, u.t).GroupRelease?
    ensures Core(Step(s, u))
  {
    ActingHolder(s, u.t);
  }

  lemma Wraps(a: int, k: nat)
    requires 0 <= a < WRAP
    ensures 0 <= (a + 1) % WRAP < WRAP && (a + 1) % WRAP == (if a + 1 == WRAP then 0 else a + 1)
    ensures ((a + 1) % WRAP + k) % WRAP == (a + 1 + k) % WRAP
    ensures ((a + k) % WRAP + 1) % WRAP == (a + k + 1) % WRAP
  {
  }

  lemma TakeKeepsCore(s: State, u: Turn)
    requires Inv(s) && Pc(s, u.t).TakeTicket?
    ensures Core(Step(s, u))
  {
    ActingHolder(s, u.t);
    Wraps(s.serving, |s.line|);
    hide Inv;
    assert |s.line| <= 1;
  }

  lemma ReleaseKeepsCore(s: State, u: Turn)
    requires Inv(s) && Pc(s, u.t).FilterRelease?
    ensures Core(Step(s, u))
  {
    ActingHolder(s, u.t);
    Wraps(s.serving, |s.line| - 1);
    hide Inv;
    assert Step(s, u).line == s.line[1..];
  }

  lemma SpinKeepsCore(s: State, u: Turn)
    requires Inv(s) && Pc(s, u.t).SpinTicket?
    ensures Core(Step(s, u))
  {
    ActingHolder(s, u.t);
    Wraps(s.serving, 0);
    assert TicketOk(s, Pc(s, u.t));
    hide Inv;
  }

  lemma FlagKeepsCore(s: State, u: Turn)
    requires Inv(s) && Holding(Pc(s, u.t)).Some?
    requires !Pc(s, u.t).TakeTicket? && !Pc(s, u.t).SpinTicket? && !Pc(s, u.t).FilterRelease?
             && !Pc(s, u.t).GroupRelease?
    ensures Core(Step(s, u))
  {
    ActingHolder(s, u.t);
    match Pc(s, u.t)
    case ReadStraight => return;
    case SetStraight => return;
    case SetLowAcq => return;
    case Critical(_) => return;
    case ReadLowAcq(_) => return;
    case AskWaiters => return;
    case ClearStraight => return;
    case ClearLowAcq => return;
  }

  lemma TakesTicket(s: State, u: Turn)
    requires Inv(s) && Pc(s, u.t).TakeTicket?
    ensures TicketOk(Step(s, u), Pc(Step(s, u), u.t))
  {
    ActingHolder(s, u.t);
    assert |s.line| <= 1 && Step(s, u).line == s.line + [Pc(s, u.t).g];
    hide Inv;
  }

  lemma OwnTicket(s: State, u: Turn)
    requires Inv(s)
    ensures TicketOk(Step(s, u), Pc(Step(s, u), u.t))
  {
    if Pc(s, u.t).TakeTicket? { hide *; TakesTicket(s, u); return; }
    assert TicketOk(s, Pc(s, u.t));
    hide Inv;
    if Pc(s, u.t).ReadLowAcq? || Pc(s, u.t).Await? { return; }
  }

  lemma OtherTicket(s: State, u: Turn, t: Thread)
    requires Inv(s) && t != u.t && Pc(s, t).SpinTicket?
    ensures TicketOk(Step(s, u), Pc(s, t))
  {
    assert TicketOk(s, Pc(s, t));
    ActingHolder(s, t);
    if Pc(s, u.t).FilterRelease? {
      ActingHolder(s, u.t);
      Wraps(s.serving, 0);
      assert s.line == [Pc(s, u.t).g, Pc(s, t).g];
      hide Inv;
    } else if Pc(s, u.t).TakeTicket? {
      hide Inv;
    } else {
      hide Inv;
      assert Step(s, u).line == s.line && Step(s, u).serving == s.serving;
    }
  }

  lemma StepKeepsTickets(s: State, u: Turn, t: Thread)
    requires Inv(s)
    ensures TicketOk(Step(s, u), Pc(Step(s, u), t))
  {
    hide Step, Inv;
    if t == u.t {
      OwnTicket(s, u);
    } else {
      OnlyOneMoves(s, u, t);
      if Pc(s, t).SpinTicket? { OtherTicket(s, u, t); }
    }
  }

  lemma StepKeepsInv(s: State, u: Turn)
    requires Inv(s)
    ensures Inv(Step(s, u))
  {
    hide Inv, Step, HolderPc, TicketOk;
    forall t: Thread, g: Group ensures HolderPc(Step(s, u), t, g) { StepKeepsHolders(s, u, t, g); }
    forall t: Thread ensures TicketOk(Step(s, u), Pc(Step(s, u), t)) { StepKeepsTickets(s, u, t); }
    var pc := Pc(s, u.t);
    if pc.TakeTicket? {
      TakeKeepsCore(s, u);
    } else if pc.SpinTicket? {
      SpinKeepsCore(s, u);
    } else if pc.FilterRelease? {
      ReleaseKeepsCore(s, u);
    } else if pc.Idle? {
      RequestKeepsCore(s, u);
    } else if pc.Await? {
      EnterKeepsCore(s, u);
    } else if pc.GroupRelease? {
      LeaveKeepsCore(s, u);
    } else {
      FlagKeepsCore(s, u);
    }
    CoreIsInv(Step(s, u));
  }

  lemma CoreIsInv(s: State)
    requires Core(s) && (forall t: Thread, g: Group :: HolderPc(s, t, g)) && forall t: Thread :: TicketOk(s, Pc(s, t))
    ensures Inv(s)
  {
    hide HolderPc, TicketOk, HighOk, LowOk;
  }

  // ---------------------------------------------------------------- every interleaving

  function Run(schedule: seq<Turn>): State {
    if schedule == [] then INIT
    else Step(Run(schedule[..|schedule| - 1]), schedule[|schedule| - 1])
  }

  lemma {:induction false} RunKeepsInv(schedule: seq<Turn>)
    ensures Inv(Run(schedule))
  {
    if schedule != [] {
      RunKeepsInv(schedule[..|schedule| - 1]);
      hide Inv, Step;
      StepKeepsInv(Run(schedule[..|schedule| - 1]), schedule[|schedule| - 1]);
    }
  }

  /** Across both groups at most one thread is in the critical section, although the filter ticket taken
      by one high thread may be given back by another. */
  lemma MutualExclusion(schedule: seq<Turn>, t: Thread, u: Thread)
    requires Pc(Run(schedule), t).Critical? && Pc(Run(schedule), u).Critical?
    ensures t == u
  {
    RunKeepsInv(schedule);
    ActingHolder(Run(schedule), t);
    ActingHolder(Run(schedule), u);
  }

  /** At release low_p_acq is set exactly if the releasing thread is of the low group. */
  lemma LowFlagNamesReleaser(schedule: seq<Turn>, t: Thread)
    requires Pc(Run(schedule), t).ReadLowAcq?
    ensures Run(schedule).lowAcq <==> Pc(Run(schedule), t).g.Low?
  {
    RunKeepsInv(schedule);
    ReleasesOwnGroup(Run(schedule), t);
  }

  /** For runs of any length at most two tickets are outstanding, one per group, so the 32-bit counters
      tell exactly whose turn it is; and go_straight means the high group is being served. */
  lemma FilterBound(schedule: seq<Turn>)
    ensures var s := Run(schedule);
            && |s.line| <= 2 && (|s.line| == 2 ==> s.line[0] != s.line[1])
            && (s.next - s.serving) % WRAP == |s.line|
            && (s.straight ==> s.line != [] && s.line[0] == High)
  {
    RunKeepsInv(schedule);
    var s := Run(schedule);
    hide Run;
    assert s.next == if s.serving + |s.line| < WRAP then s.serving + |s.line| else s.serving + |s.line| - WRAP;
  }

  lemma SpinTest(s: State, t: Thread)
    requires Inv(s) && Pc(s, t).SpinTicket?
    ensures s.line != [] && (s.serving == Pc(s, t).my <==> s.line[0] == Pc(s, t).g)
  {
    assert TicketOk(s, Pc(s, t)) && 0 <= s.serving < WRAP;
    hide Inv;
    TurnIsOrder(s.serving);
  }

  /** A thread spinning on its ticket passes exactly when its group is at the front. */
  lemma SpinEndsInTurn(schedule: seq<Turn>, t: Thread)
    requires Pc(Run(schedule), t).SpinTicket?
    ensures var s := Run(schedule);
            s.line != [] && (s.serving == Pc(s, t).my <==> s.line[0] == Pc(s, t).g)
  {
    hide Run, Inv;
    RunKeepsInv(schedule);
    SpinTest(Run(schedule), t);
  }

  lemma TurnIsOrder(a: int)
    requires 0 <= a < WRAP
    ensures a % WRAP == a && (a + 1) % WRAP != a
  {
  }

  /** A high thread that has taken its filter ticket sees at most one low critical section before its own. */
  lemma PriorityBound(schedule: seq<Turn>, t: Thread)
    requires var pc := Pc(Run(schedule), t); pc.SetStraight? || (pc.SpinTicket? && pc.g.High?)
    ensures Run(schedule).lows <= 1
  {
    var s := Run(schedule);
    RunKeepsInv(schedule);
    ActingHolder(s, t);
    hide Run;
    assert TicketOk(s, Pc(s, t));
  }

  /** The filter is never left with the high group when no high thread is there to give it back. */
  lemma FilterNotStranded(schedule: seq<Turn>)
    requires High in Run(schedule).line
    ensures Run(schedule).high.holder.Some? || Run(schedule).high.waiting != {}
  {
    RunKeepsInv(schedule);
  }

  /** The thread is inside a call or the critical section and its next instruction is no spin retry. */
  predicate Runnable(s: State, t: Thread) { Pc(s, t) != Idle && Step(s, Turn(t, High, false)) != s }

  /** The holder of a group's lock can move unless it spins on a ticket whose turn is the other group's. */
  lemma HolderMoves(s: State, g: Group, u: Thread)
    requires Inv(s) && LockOf(s, g).holder == Some(u) && !(Pc(s, u).SpinTicket? && s.line[0] != g)
    ensures Runnable(s, u)
  {
    assert HolderPc(s, u, g) && TicketOk(s, Pc(s, u));
    Wraps(s.serving, 0);
    if Pc(s, u).SpinTicket? { SpinTest(s, u); }
    hide Inv;
    assert Pc(Step(s, Turn(u, High, false)), u) != Pc(s, u);
  }

  lemma WaiterMoves(s: State, u: Thread)
    requires Inv(s) && u in s.high.waiting && s.high.holder.None?
    ensures Runnable(s, u)
  {
    assert HolderPc(s, u, High);
    hide Inv;
    assert Pc(Step(s, Turn(u, High, false)), u) != Pc(s, u);
  }

  lemma HolderLeads(s: State, g: Group) returns (u: Thread)
    requires Inv(s) && LockOf(s, g).holder.Some?
    ensures Runnable(s, u)
  {
    u := LockOf(s, g).holder.value;
    assert HolderPc(s, u, g);
    hide Runnable;
    if Pc(s, u).SpinTicket? && s.line[0] != g {
      var other := s.line[0];
      assert other.Low? || s.straight || s.high.holder.Some?;
      if LockOf(s, other).holder.None? {
        u :| u in s.high.waiting;
        WaiterMoves(s, u);
      } else {
        u := LockOf(s, other).holder.value;
        HolderMoves(s, other, u);
      }
    } else {
      HolderMoves(s, g, u);
    }
  }

  /** In every reachable state in which some thread is not idle, some thread can move on. */
  lemma NoLostHandoff(schedule: seq<Turn>, t: Thread)
    requires Pc(Run(schedule), t) != Idle
    ensures exists u: Thread :: Runnable(Run(schedule), u)
  {
    var s := Run(schedule);
    RunKeepsInv(schedule);
    hide Run;
    if !Runnable(s, t) {
      assert HolderPc(s, t, High) && HolderPc(s, t, Low);
      var u := HolderLeads(s, if Pc(s, t).Await? then Pc(s, t).g else Holding(Pc(s, t)).value);
    }
  }

  // ---------------------------------------------------------------- the lock as an object

  class Lock {
    var high: GroupLock
    var low: GroupLock
    var next: int
    var serving: int
    var straight: bool
    var lowAcq: bool
    var pc: map<Thread, PC>
    ghost var line: seq<Group>
    ghost var lows: nat

    ghost function Snapshot(): State
      reads this
    {
      State(high, low, next, serving, straight, lowAcq, pc, line, lows)
    }

    ghost predicate Valid() reads this { Inv(Snapshot()) }

    constructor ()
      ensures Valid() && Snapshot() == INIT
    {
      high, low, next, serving, straight, lowAcq := FREE, FREE, 0, 0, false, false;
      pc, line, lows := map[], [], 0;
    }

    method Goto(t: Thread, to: PC)
      modifies this`pc
      ensures pc == old(pc)[t := to]
    {
      pc := pc[t := to];
    }

    /** `t` starts to acquire a group's lock. */
    method Request(t: Thread, g: Group)
      modifies this`high, this`low
      ensures g.High? ==> high == old(high).(waiting := old(high.waiting) + {t}) && low == old(low)
      ensures g.Low? ==> low == old(low).(waiting := old(low.waiting) + {t}) && high == old(high)
    {
      if g.High? {
        high := high.(waiting := high.waiting + {t});
      } else {
        low := low.(waiting := low.waiting + {t});
      }
    }

    /** my_ticket := fetch_add(next_ticket, 1) */
    method DrawTicket(g: Group) returns (my: int)
      modifies this`next, this`line, this`lows
      ensures my == old(next) && next == (old(next) + 1) % WRAP && line == old(line) + [g]
      ensures lows == if g.High? then 0 else old(lows)
    {
      my := next;
      next, line := (next + 1) % WRAP, line + [g];
      lows := if g.High? then 0 else lows;
    }

    /** The next instruction of zm_mcsp_acquire or zm_tlp_acquire. */
    method Acquire(t: Thread)
      requires Valid()
      requires var pc := At(pc, t, Idle);
               pc.Idle? || pc == Await(High) || pc.ReadStraight? || pc == TakeTicket(High)
               || (pc.SpinTicket? && pc.g.High?) || pc.SetStraight?
      modifies this
      ensures Valid() && Snapshot() == Step(old(Snapshot()), Turn(t, High, false))
    {
      StepKeepsInv(Snapshot(), Turn(t, High, false));
      hide Inv;
      match At(pc, t, Idle)
      case Idle =>
        Request(t, High);
        Goto(t, Await(High));
      case Await(_) =>
        if high.holder.None? {
          high := GroupLock(Some(t), high.waiting - {t});
          Goto(t, ReadStraight);
        }
      case ReadStraight => Goto(t, if straight then Critical(High) else TakeTicket(High));
      case TakeTicket(_) =>
        var my := DrawTicket(High);
        Goto(t, SpinTicket(High, my));
      case SpinTicket(_, my) => if serving == my { Goto(t, SetStraight); }
      case SetStraight =>
        straight := true;
        Goto(t, Critical(High));
    }

    /** The next instruction of zm_mcsp_acquire_low or zm_tlp_acquire_low. */
    method AcquireLow(t: Thread)
      requires Valid()
      requires var pc := At(pc, t, Idle);
               pc.Idle? || pc == Await(Low) || pc == TakeTicket(Low) || (pc.SpinTicket? && pc.g.Low?) || pc.SetLowAcq?
      modifies this
      ensures Valid() && Snapshot() == Step(old(Snapshot()), Turn(t, Low, false))
    {
      StepKeepsInv(Snapshot(), Turn(t, Low, false));
      hide Inv;
      match At(pc, t, Idle)
      case Idle =>
        Request(t, Low);
        Goto(t, Await(Low));
      case Await(_) =>
        if low.holder.None? {
          low := GroupLock(Some(t), low.waiting - {t});
          Goto(t, TakeTicket(Low));
        }
      case TakeTicket(_) =>
        var my := DrawTicket(Low);
        Goto(t, SpinTicket(Low, my));
      case SpinTicket(_, my) => if serving == my { Goto(t, SetLowAcq); }
      case SetLowAcq =>
        lowAcq, lows := true, lows + 1;
        Goto(t, Critical(Low));
    }

    /** The next instruction of zm_mcsp_release or zm_tlp_release; `overlook` when the high group's
        nowaiters misses a thread that has not linked itself in yet. */
    method Release(t: Thread, overlook: bool)
      requires Valid()
      requires Served(At(pc, t, Idle)) || At(pc, t, Idle).GroupRelease?
      requires !At(pc, t, Idle).SetStraight? && !At(pc, t, Idle).SetLowAcq?
      modifies this
      ensures Valid() && Snapshot() == Step(old(Snapshot()), Turn(t, High, overlook))
    {
      hide Inv;
      if At(pc, t, Idle).FilterRelease? || At(pc, t, Idle).GroupRelease? {
        hide Step;
        GiveUp(t, overlook);
      } else {
        SettleFlags(t, overlook);
      }
    }

    /** Up to the decision what to release: the flags are read and cleared. */
    method SettleFlags(t: Thread, overlook: bool)
      requires Valid()
      requires var pc := At(pc, t, Idle);
               pc.Critical? || pc.ReadLowAcq? || pc.AskWaiters? || pc.ClearStraight? || pc.ClearLowAcq?
      modifies this`straight, this`lowAcq, this`pc
      ensures Valid() && Snapshot() == Step(old(Snapshot()), Turn(t, High, overlook))
    {
      StepKeepsInv(Snapshot(), Turn(t, High, overlook));
      hide Inv;
      match At(pc, t, Idle)
      case Critical(g) => Goto(t, ReadLowAcq(g));
      case ReadLowAcq(_) => Goto(t, if lowAcq then ClearLowAcq else AskWaiters);
      case AskWaiters => Goto(t, if overlook || high.waiting == {} then ClearStraight else GroupRelease(High));
      case ClearStraight =>
        straight := false;
        Goto(t, FilterRelease(High));
      case ClearLowAcq =>
        lowAcq := false;
        Goto(t, FilterRelease(Low));
    }

    /** The filter, and then the group's lock. */
    method GiveUp(t: Thread, overlook: bool)
      requires Valid() && (At(pc, t, Idle).FilterRelease? || At(pc, t, Idle).GroupRelease?)
      modifies this
      ensures Valid() && Snapshot() == Step(old(Snapshot()), Turn(t, High, overlook))
    {
      StepKeepsInv(Snapshot(), Turn(t, High, overlook));
      hide Inv;
      match At(pc, t, Idle)
      case FilterRelease(g) =>
        serving, line := (serving + 1) % WRAP, if line == [] then [] else line[1..];
        Goto(t, GroupRelease(g));
      case GroupRelease(g) =>
        if g.High? { high := high.(holder := None); } else { low := low.(holder := None); }
        Goto(t, Idle);
    }
  }
}
