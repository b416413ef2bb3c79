/** The MCS queue lock of zm_mcs.c, one atomic instruction per step. */
module Mcs {
  import opened Cells

  type Thread = nat  // a thread stands for itself and for the one queue node it passes to the lock

  const LOCKED := 1
  const UNLOCKED := 0

  /** The instruction a thread executes next. */
  datatype PC =
    | Idle
    | ClearNext(try: bool)       // I->next := NULL, in acquire_c or tryacq_c
    | SwapLock                   // pred := SWAP(lock, I)
    | SetLocked(pred: Thread)    // I->status := LOCKED
    | LinkPred(pred: Thread)     // pred->next := I
    | SpinStatus                 // while I->status != UNLOCKED
    | TryCas                     // CAS(lock, NULL, I)
    | Critical
    | ReadNext                   // if I->next == NULL
    | ReleaseCas                 // CAS(lock, I, NULL)
    | SpinNext                   // while I->next == NULL
    | FetchNext                  // succ := I->next
    | Handoff(succ: Thread)      // succ->status := UNLOCKED

  /** `queue` is a history variable: the nodes that have swapped themselves in and not been released. */
  datatype State = State(
    lock: Option<Thread>,
    status: map<Thread, int>,
    next: map<Thread, Option<Thread>>,
    pc: map<Thread, PC>,
    queue: seq<Thread>)

  const INIT := State(None, map[], map[], map[], [])

  function Pc(s: State, t: Thread): PC { At(s.pc, t, Idle) }
  function Next(s: State, t: Thread): Option<Thread> { At(s.next, t, None) }
  function Status(s: State, t: Thread): int { At(s.status, t, UNLOCKED) }

  function Goto(s: State, t: Thread, pc: PC): State { s.(pc := s.pc[t := pc]) }

  /** One instruction of thread `t`; an idle thread calls acquire, or tryacq when `try`. */
  function Step(s: State, t: Thread, try: bool): State {
    match Pc(s, t)
    case Idle => Goto(s, t, ClearNext(try))
    case ClearNext(b) => Goto(s.(next := s.next[t := None]), t, if b then TryCas else SwapLock)
    case SwapLock =>
      Goto(s.(lock := Some(t), queue := s.queue + [t]), t,
           if s.lock.Some? then SetLocked(s.lock.value) else Critical)
    case SetLocked(p) => Goto(s.(status := s.status[t := LOCKED]), t, LinkPred(p))
    case LinkPred(p) => Goto(s.(next := s.next[p := Some(t)]), t, SpinStatus)
    case SpinStatus => if Status(s, t) == UNLOCKED then Goto(s, t, Critical) else s
    case TryCas =>
      if s.lock.None? then Goto(s.(lock := Some(t), queue := s.queue + [t]), t, Critical) else Goto(s, t, Idle)
    case Critical => Goto(s, t, ReadNext)
    case ReadNext => Goto(s, t, if Next(s, t).None? then ReleaseCas else FetchNext)
    case ReleaseCas =>
      if s.lock == Some(t) then Goto(s.(lock := None, queue := []), t, Idle) else Goto(s, t, SpinNext)
    case SpinNext => if Next(s, t).None? then s else Goto(s, t, FetchNext)
    case FetchNext => if Next(s, t).None? then s else Goto(s, t, Handoff(Next(s, t).value))
    case Handoff(u) =>
      Goto(s.(status := s.status[u := UNLOCKED], queue := if s.queue == [] then [] else s.queue[1..]), t, Idle)
  }

  // ---------------------------------------------------------------- invariant

  predicate Holding(pc: PC) {
    pc.Critical? || pc.ReadNext? || pc.ReleaseCas? || pc.SpinNext? || pc.FetchNext? || pc.Handoff?
  }

  predicate Enqueued(pc: PC) {
    pc.SetLocked? || pc.LinkPred? || pc.SpinStatus? || Holding(pc)
  }

  /** The head of the queue holds the lock, or has been signalled and is about to notice. */
  predicate HeadOk(s: State, t: Thread) {
    Holding(Pc(s, t)) || (Pc(s, t).SpinStatus? && Status(s, t) == UNLOCKED)
  }

  /** `q` waits right behind `p`: the link is either still owed by `q` or in place. */
  predicate WaitsBehind(s: State, p: Thread, q: Thread) {
    match Pc(s, q)
    case SetLocked(r) => r == p && Next(s, p).None?
    case LinkPred(r) => r == p && Next(s, p).None? && Status(s, q) == LOCKED
    case SpinStatus => Next(s, p) == Some(q) && Status(s, q) == LOCKED
    case _ => false
  }

  /** What a thread may rely on at each instruction. */
  predicate LocalOk(s: State, t: Thread) {
    match Pc(s, t)
    case SwapLock => Next(s, t).None?
    case TryCas => Next(s, t).None?
    case SpinNext => s.lock != Some(t)
    case FetchNext => Next(s, t).Some?
    case Handoff(u) => Next(s, t) == Some(u)
    case _ => true
  }

  ghost predicate Inv(s: State) {
    && (forall i, j :: 0 <= i < j < |s.queue| ==> s.queue[i] != s.queue[j])
    && (forall t: Thread :: Enqueued(Pc(s, t)) <==> t in s.queue)
    && s.lock == (if s.queue == [] then None else Some(s.queue[|s.queue| - 1]))
    && (s.queue != [] ==> HeadOk(s, s.queue[0]) && Next(s, s.queue[|s.queue| - 1]).None?)
    && (forall i, j :: 0 <= i < j < |s.queue| && j == i + 1 ==> WaitsBehind(s, s.queue[i], s.queue[j]))
    && (forall t: Thread {:trigger Pc(s, t)} {:trigger LocalOk(s, t)} :: LocalOk(s, t))
  }

  /** Whoever is past its acquire is the head of the queue. */
  lemma HolderIsHead(s: State, t: Thread)
    requires Inv(s) && Holding(Pc(s, t))
    ensures s.queue != [] && s.queue[0] == t
  {
    var k :| 0 <= k < |s.queue| && s.queue[k] == t;
    assert k > 0 ==> WaitsBehind(s, s.queue[k - 1], s.queue[k]);
  }

  // ---------------------------------------------------------------- every instruction keeps the invariant

  ghost predicate Moves(s: State, s': State, t: Thread, pc: PC) {
    forall u: Thread :: Pc(s', u) == if u == t then pc else Pc(s, u)
  }
  ghost predicate SameNext(s: State, s': State) { forall u: Thread :: Next(s', u) == Next(s, u) }
  ghost predicate SameStatus(s: State, s': State) { forall u: Thread :: Status(s', u) == Status(s, u) }

  /** An instruction that writes no shared word. */
  lemma MoveKeepsInv(s: State, s': State, t: Thread, pc: PC)
    requires Inv(s) && Moves(s, s', t, pc)
    requires SameNext(s, s') && SameStatus(s, s') && s'.queue == s.queue && s'.lock == s.lock
    requires Enqueued(Pc(s, t)) == Enqueued(pc) && LocalOk(s', t)
    requires Enqueued(pc) ==> HeadOk(s, t) && Holding(pc)
    ensures Inv(s')
  {
    if t in s.queue {
      var k :| 0 <= k < |s.queue| && s.queue[k] == t;
      assert k > 0 ==> WaitsBehind(s, s.queue[k - 1], s.queue[k]);
    }
    forall i, j | 0 <= i < j < |s.queue| && j == i + 1 ensures WaitsBehind(s', s.queue[i], s.queue[j]) {
      assert WaitsBehind(s, s.queue[i], s.queue[j]);
    }
    assert s.queue != [] ==> HeadOk(s', s.queue[0]);
    forall u: Thread ensures LocalOk(s', u) { assert LocalOk(s, u); }
    hide WaitsBehind, LocalOk, HeadOk;
  }

  lemma ClearNextKeepsInv(s: State, s': State, t: Thread, pc: PC)
    requires Inv(s) && Pc(s, t).ClearNext? && (pc.TryCas? || pc.SwapLock?) && Moves(s, s', t, pc)
    requires SameStatus(s, s') && s'.queue == s.queue && s'.lock == s.lock
    requires forall u: Thread :: Next(s', u) == if u == t then None else Next(s, u)
    ensures Inv(s')
  {
    assert t !in s.queue;
    forall i, j | 0 <= i < j < |s.queue| && j == i + 1 ensures WaitsBehind(s', s.queue[i], s.queue[j]) {
      assert WaitsBehind(s, s.queue[i], s.queue[j]);
    }
    assert s.queue != [] ==> HeadOk(s', s.queue[0]);
    forall u: Thread ensures LocalOk(s', u) { assert LocalOk(s, u); }
    hide WaitsBehind, LocalOk, HeadOk;
  }

  /** SWAP, or a CAS that finds the lock word null, appends the node to the queue. */
  ghost predicate Appends(s: State, s': State, t: Thread, pc: PC) {
    && (Pc(s, t).SwapLock? || (Pc(s, t).TryCas? && s.lock.None?))
    && pc == (if s.lock.Some? then SetLocked(s.lock.value) else Critical) && Moves(s, s', t, pc)
    && SameNext(s, s') && SameStatus(s, s')
    && s'.queue == s.queue + [t] && s'.lock == Some(t)
  }

  lemma AppendPair(s: State, s': State, t: Thread, pc: PC, i: nat, j: nat)
    requires Inv(s) && Appends(s, s', t, pc) && j == i + 1 < |s'.queue|
    ensures WaitsBehind(s', s'.queue[i], s'.queue[j])
  {
    if j < |s.queue| { assert WaitsBehind(s, s.queue[i], s.queue[j]) && s.queue[j] != t; }
  }

  lemma AppendLocal(s: State, s': State, t: Thread, pc: PC, u: Thread)
    requires Inv(s) && Appends(s, s', t, pc)
    ensures LocalOk(s', u)
  {
    assert LocalOk(s, u);
  }

  lemma AppendHead(s: State, s': State, t: Thread, pc: PC)
    requires Inv(s) && Appends(s, s', t, pc)
    ensures HeadOk(s', s'.queue[0])
  {
    assert s.queue != [] ==> HeadOk(s, s.queue[0]) && s'.queue[0] == s.queue[0] != t;
  }

  lemma AppendKeepsInv(s: State, s': State, t: Thread, pc: PC)
    requires Inv(s) && Appends(s, s', t, pc)
    ensures Inv(s')
  {
    hide WaitsBehind, LocalOk, HeadOk;
    assert forall u: Thread :: u in s'.queue <==> u in s.queue || u == t;
    assert t !in s.queue && LocalOk(s, t);
    forall i, j | 0 <= i < j < |s'.queue| && j == i + 1 ensures WaitsBehind(s', s'.queue[i], s'.queue[j]) {
      AppendPair(s, s', t, pc, i, j);
    }
    forall u: Thread ensures LocalOk(s', u) { AppendLocal(s, s', t, pc, u); }
    AppendHead(s, s', t, pc);
    NextOfNew(s, t);
  }

  lemma NextOfNew(s: State, t: Thread)
    requires LocalOk(s, t) && (Pc(s, t).SwapLock? || Pc(s, t).TryCas?)
    ensures Next(s, t).None?
  {
  }

  lemma SetLockedKeepsInv(s: State, s': State, t: Thread, p: Thread)
    requires Inv(s) && Pc(s, t) == SetLocked(p) && Moves(s, s', t, LinkPred(p))
    requires SameNext(s, s') && s'.queue == s.queue && s'.lock == s.lock
    requires forall u: Thread :: Status(s', u) == if u == t then LOCKED else Status(s, u)
    ensures Inv(s')
  {
  }

  lemma LinkPredKeepsInv(s: State, s': State, t: Thread, p: Thread)
    requires Inv(s) && Pc(s, t) == LinkPred(p) && Moves(s, s', t, SpinStatus)
    requires SameStatus(s, s') && s'.queue == s.queue && s'.lock == s.lock
    requires forall u: Thread :: Next(s', u) == if u == p then Some(t) else Next(s, u)
    ensures Inv(s')
  {
    var k :| 0 <= k < |s.queue| && s.queue[k] == t;
    assert k > 0 && WaitsBehind(s, s.queue[k - 1], s.queue[k]);
    forall i, j | 0 <= i < j < |s'.queue| && j == i + 1
      ensures WaitsBehind(s', s'.queue[i], s'.queue[j])
    {
      assert WaitsBehind(s, s.queue[i], s.queue[j]);
    }
    assert HeadOk(s', s.queue[0]);
    forall u: Thread ensures LocalOk(s', u) { assert LocalOk(s, u); }
    hide WaitsBehind, LocalOk, HeadOk;
  }

  lemma EmptyKeepsInv(s: State, s': State, t: Thread)
    requires Inv(s) && Pc(s, t).ReleaseCas? && s.lock == Some(t) && Moves(s, s', t, Idle)
    requires SameNext(s, s') && SameStatus(s, s') && s'.queue == [] && s'.lock.None?
    ensures Inv(s') && s.queue == [t]
  {
    HolderIsHead(s, t);
  }

  lemma HandoffKeepsInv(s: State, s': State, t: Thread, u: Thread)
    requires Inv(s) && Pc(s, t) == Handoff(u) && Moves(s, s', t, Idle)
    requires SameNext(s, s') && s'.lock == s.lock && (s.queue != [] ==> s'.queue == s.queue[1..])
    requires forall v: Thread :: Status(s', v) == if v == u then UNLOCKED else Status(s, v)
    ensures Inv(s') && |s.queue| > 1 && s.queue[0] == t && s.queue[1] == u
  {
    HolderIsHead(s, t);
    assert LocalOk(s, t);
    assert |s.queue| > 1 ==> WaitsBehind(s, s.queue[0], s.queue[1]);
    assert forall v: Thread :: v in s.queue <==> v in s.queue[1..] || v == t;
    forall i, j | 0 <= i < j < |s'.queue| && j == i + 1 ensures WaitsBehind(s', s'.queue[i], s'.queue[j]) {
      assert WaitsBehind(s, s.queue[i + 1], s.queue[j + 1]);
    }
    assert HeadOk(s', s.queue[1]);
    forall v: Thread ensures LocalOk(s', v) { assert LocalOk(s, v); }
    hide WaitsBehind, LocalOk, HeadOk;
  }

  lemma AcquireKeepsInv(s: State, t: Thread, try: bool)
    requires Inv(s) && !Holding(Pc(s, t))
    ensures Inv(Step(s, t, try))
  {
    assert LocalOk(s, t);
    assert Pc(s, t).SpinStatus? && Status(s, t) == UNLOCKED ==> HeadOk(s, t);
    hide Inv;
    var s' := Step(s, t, try);
    var pc := Pc(s', t);
    match Pc(s, t)
    case Idle => MoveKeepsInv(s, s', t, pc);
    case ClearNext(_) => ClearNextKeepsInv(s, s', t, pc);
    case SwapLock => AppendKeepsInv(s, s', t, pc);
    case TryCas => if s.lock.None? { AppendKeepsInv(s, s', t, pc); } else { MoveKeepsInv(s, s', t, pc); }
    case SetLocked(p) => SetLockedKeepsInv(s, s', t, p);
    case LinkPred(p) => LinkPredKeepsInv(s, s', t, p);
    case SpinStatus => if s' != s { MoveKeepsInv(s, s', t, pc); }
  }

  lemma ReleaseKeepsInv(s: State, t: Thread, try: bool)
    requires Inv(s) && Holding(Pc(s, t))
    ensures Inv(Step(s, t, try))
  {
    HolderIsHead(s, t);
    assert LocalOk(s, t);
    hide Inv;
    var s' := Step(s, t, try);
    match Pc(s, t)
    case ReleaseCas => if s.lock == Some(t) { EmptyKeepsInv(s, s', t); } else { MoveKeepsInv(s, s', t, SpinNext); }
    case Handoff(u) => HandoffKeepsInv(s, s', t, u);
    case _ => MoveKeepsInv(s, s', t, Pc(s', t));
  }

  lemma StepKeepsInv(s: State, t: Thread, try: bool)
    requires Inv(s)
    ensures Inv(Step(s, t, try))
  {
    hide Inv, Step;
    if Holding(Pc(s, t)) { ReleaseKeepsInv(s, t, try); } else { AcquireKeepsInv(s, t, try); }
  }

  // ---------------------------------------------------------------- every interleaving

  /** A schedule says which thread executes next and, if it is idle, which call it makes. */
  datatype Turn = Turn(t: Thread, try: bool)

  function Run(schedule: seq<Turn>): State {
    if schedule == [] then INIT
    else
      var last := |schedule| - 1;
      Step(Run(schedule[..last]), schedule[last].t, schedule[last].try)
  }

  lemma {:induction false} RunKeepsInv(schedule: seq<Turn>)
    ensures Inv(Run(schedule))
  {
    if schedule != [] {
      var last := |schedule| - 1;
      RunKeepsInv(schedule[..last]);
      StepKeepsInv(Run(schedule[..last]), schedule[last].t, schedule[last].try);
    }
  }

  /** At most one thread is between the end of its acquire and the end of its release. */
  lemma MutualExclusion(schedule: seq<Turn>, t: Thread, u: Thread)
    requires Holding(Pc(Run(schedule), t)) && Holding(Pc(Run(schedule), u))
    ensures t == u
  {
    RunKeepsInv(schedule);
    HolderIsHead(Run(schedule), t);
    HolderIsHead(Run(schedule), u);
  }

  // ---------------------------------------------------------------- refinement of an abstract FIFO lock

  datatype Event =
    | Silent
    | Request(t: Thread)   // takes a place in line
    | Enter(t: Thread)     // acquire returns after waiting
    | Grab(t: Thread)      // takes a place and enters at once
    | Refused(t: Thread)   // tryacq reports failure
    | Leave(t: Thread)     // gives the lock up

  /** The abstract lock: the line of threads, and whether its front is inside. */
  datatype Fifo = Fifo(line: seq<Thread>, busy: bool)

  /** The events an abstract FIFO lock allows, and what they do. */
  function Accept(l: Fifo, e: Event): Option<Fifo> {
    match e
    case Silent => Some(l)
    case Request(t) => if t in l.line then None else Some(l.(line := l.line + [t]))
    case Enter(t) => if !l.busy && l.line != [] && l.line[0] == t then Some(l.(busy := true)) else None
    case Grab(t) => if l.line == [] then Some(Fifo([t], true)) else None
    case Refused(_) => if l.line != [] then Some(l) else None
    case Leave(t) => if l.busy && l.line != [] && l.line[0] == t then Some(Fifo(l.line[1..], false)) else None
  }

  function EventOf(s: State, t: Thread): Event {
    match Pc(s, t)
    case SwapLock => if s.lock.None? then Grab(t) else Request(t)
    case SpinStatus => if Status(s, t) == UNLOCKED then Enter(t) else Silent
    case TryCas => if s.lock.None? then Grab(t) else Refused(t)
    case ReleaseCas => if s.lock == Some(t) then Leave(t) else Silent
    case Handoff(_) => Leave(t)
    case _ => Silent
  }

  function Abstract(s: State): Fifo {
    Fifo(s.queue, s.queue != [] && Holding(Pc(s, s.queue[0])))
  }

  lemma SilentStepRefines(s: State, t: Thread, try: bool)
    requires Inv(s) && EventOf(s, t).Silent?
    ensures Abstract(Step(s, t, try)) == Abstract(s)
  {
    if Holding(Pc(s, t)) {
      HolderIsHead(s, t);
    }
    assert LocalOk(s, t);
    assert s.queue != [] ==> HeadOk(s, s.queue[0]);
    hide Inv;
    assert Pc(Step(s, t, try), t) == Pc(s, t) || Holding(Pc(Step(s, t, try), t)) == Holding(Pc(s, t));
  }

  lemma EnqueueRefines(s: State, t: Thread, try: bool)
    requires Inv(s) && (Pc(s, t).SwapLock? || Pc(s, t).TryCas?)
    ensures Accept(Abstract(s), EventOf(s, t)) == Some(Abstract(Step(s, t, try)))
  {
    assert t !in s.queue && (s.lock.None? <==> s.queue == []);
    hide Inv, Accept, Abstract, EventOf, Step;
    if s.lock.None? {
      GrabRefines(s, t, try);
    } else if Pc(s, t).TryCas? {
      RefusalRefines(s, t, try);
    } else {
      RequestRefines(s, t, try);
    }
  }

  lemma GrabRefines(s: State, t: Thread, try: bool)
    requires (Pc(s, t).SwapLock? || Pc(s, t).TryCas?) && s.lock.None? && s.queue == []
    ensures Accept(Abstract(s), EventOf(s, t)) == Some(Abstract(Step(s, t, try)))
  {
    assert Step(s, t, try).queue == [t];
  }

  lemma RefusalRefines(s: State, t: Thread, try: bool)
    requires Pc(s, t).TryCas? && s.lock.Some? && s.queue != [] && t !in s.queue
    ensures Accept(Abstract(s), EventOf(s, t)) == Some(Abstract(Step(s, t, try)))
  {
    var s' := Step(s, t, try);
    assert s'.queue == s.queue && Pc(s', s.queue[0]) == Pc(s, s.queue[0]);
    hide Step, Holding;
  }

  lemma RequestRefines(s: State, t: Thread, try: bool)
    requires Pc(s, t).SwapLock? && s.lock.Some? && s.queue != [] && t !in s.queue
    ensures Accept(Abstract(s), EventOf(s, t)) == Some(Abstract(Step(s, t, try)))
  {
    var s' := Step(s, t, try);
    assert s'.queue == s.queue + [t] && Pc(s', s.queue[0]) == Pc(s, s.queue[0]);
    hide Step, Holding;
  }

  lemma DequeueRefines(s: State, t: Thread, try: bool)
    requires Inv(s) && (Pc(s, t).Handoff? || (Pc(s, t).ReleaseCas? && s.lock == Some(t)))
    ensures Accept(Abstract(s), Leave(t)) == Some(Abstract(Step(s, t, try)))
  {
    var s' := Step(s, t, try);
    if Pc(s, t).Handoff? {
      var u := Pc(s, t).succ;
      HandoffKeepsInv(s, s', t, u);
      assert LocalOk(s, t) && WaitsBehind(s, s.queue[0], s.queue[1]);
      hide Inv;
      assert Pc(s, u).SpinStatus? && Pc(s', u) == Pc(s, u);
      assert s'.queue == s.queue[1..] && s'.queue[0] == u;
    } else {
      EmptyKeepsInv(s, s', t);
      hide Inv;
      assert s.queue == [t] && s.queue[1..] == [] && s'.queue == [];
    }
  }

  lemma EnterRefines(s: State, t: Thread, try: bool)
    requires Inv(s) && Pc(s, t).SpinStatus? && Status(s, t) == UNLOCKED
    ensures Accept(Abstract(s), Enter(t)) == Some(Abstract(Step(s, t, try)))
  {
    StepKeepsInv(s, t, try);
    HolderIsHead(Step(s, t, try), t);
  }

  /** Each instruction performs exactly the abstract lock's event, or nothing. */
  lemma StepRefines(s: State, t: Thread, try: bool)
    requires Inv(s)
    ensures Accept(Abstract(s), EventOf(s, t)) == Some(Abstract(Step(s, t, try)))
  {
    hide Inv, Step, Abstract;
    match EventOf(s, t)
    case Silent => SilentStepRefines(s, t, try);
    case Enter(_) => EnterRefines(s, t, try);
    case Leave(_) => DequeueRefines(s, t, try);
    case _ => EnqueueRefines(s, t, try);
  }

  function Trace(schedule: seq<Turn>): seq<Event> {
    if schedule == [] then []
    else
      var last := |schedule| - 1;
      Trace(schedule[..last]) + [EventOf(Run(schedule[..last]), schedule[last].t)]
  }

  /** The abstract lock after a history of events, or None if the history is not one of a FIFO lock. */
  function Replay(es: seq<Event>): Option<Fifo> {
    if es == [] then Some(Fifo([], false))
    else
      match Replay(es[..|es| - 1])
      case None => None
      case Some(l) => Accept(l, es[|es| - 1])
  }

  lemma ReplayExtends(es: seq<Event>, e: Event)
    ensures Replay(es + [e]) == match Replay(es) case None => None case Some(l) => Accept(l, e)
  {
    assert (es + [e])[..|es|] == es;
  }

  /** Every interleaving of acquire, tryacq and release is a history of the abstract FIFO lock. */
  lemma {:induction false} RefinesFifo(schedule: seq<Turn>)
    ensures Replay(Trace(schedule)) == Some(Abstract(Run(schedule)))
  {
    if schedule != [] {
      hide Step, EventOf, Inv, Accept, Abstract;
      var before, turn := schedule[..|schedule| - 1], schedule[|schedule| - 1];
      RefinesFifo(before);
      RunKeepsInv(before);
      StepRefines(Run(before), turn.t, turn.try);
      ReplayExtends(Trace(before), EventOf(Run(before), turn.t));
    } else {
      hide Inv;
    }
  }

  function Requests(es: seq<Event>): seq<Thread> {
    if es == [] then [] else
    var e := es[|es| - 1];
    Requests(es[..|es| - 1]) + (if e.Request? || e.Grab? then [e.t] else [])
  }

  function Entries(es: seq<Event>): seq<Thread> {
    if es == [] then [] else
    var e := es[|es| - 1];
    Entries(es[..|es| - 1]) + (if e.Enter? || e.Grab? then [e.t] else [])
  }

  function Departures(es: seq<Event>): seq<Thread> {
    if es == [] then [] else
    var e := es[|es| - 1];
    Departures(es[..|es| - 1]) + (if e.Leave? then [e.t] else [])
  }

  /** Departures, entries and requests agree in order: who is in line has not left, who is inside is its front. */
  predicate Agree(requests: seq<Thread>, entries: seq<Thread>, departures: seq<Thread>, l: Fifo) {
    && (l.busy ==> l.line != [])
    && requests == departures + l.line
    && entries == departures + (if l.busy then [l.line[0]] else [])
  }

  lemma AgreeOn(requests: seq<Thread>, entries: seq<Thread>, departures: seq<Thread>, l: Fifo, e: Event)
    requires Agree(requests, entries, departures, l) && Accept(l, e).Some?
    ensures Agree(requests + (if e.Request? || e.Grab? then [e.t] else []),
                  entries + (if e.Enter? || e.Grab? then [e.t] else []),
                  departures + (if e.Leave? then [e.t] else []), Accept(l, e).value)
  {
    match e
    case Leave(t) =>
      assert l.line == [t] + l.line[1..];
      return;
    case _ => return;
  }

  /** What being a history of the abstract lock means. */
  lemma {:induction false} FifoHistories(es: seq<Event>)
    requires Replay(es).Some?
    ensures Agree(Requests(es), Entries(es), Departures(es), Replay(es).value)
  {
    if es != [] {
      var before := es[..|es| - 1];
      FifoHistories(before);
      hide Agree, Accept;
      AgreeOn(Requests(before), Entries(before), Departures(before), Replay(before).value, es[|es| - 1]);
    }
  }

  /** Under every interleaving threads enter in the order of their swaps, one at a time. */
  lemma EntersInSwapOrder(schedule: seq<Turn>)
    ensures Entries(Trace(schedule)) <= Requests(Trace(schedule))
    ensures |Departures(Trace(schedule))| <= |Entries(Trace(schedule))| <= |Departures(Trace(schedule))| + 1
    ensures Departures(Trace(schedule)) <= Entries(Trace(schedule))
  {
    RefinesFifo(schedule);
    hide Trace, Run, Abstract;
    var es := Trace(schedule);
    FifoHistories(es);
    hide Replay, Requests, Entries, Departures;
    assert Requests(es)[..|Departures(es)|] == Departures(es);
  }

  // ---------------------------------------------------------------- no lost hand-off

  /** The thread is inside acquire, tryacq or release, or in the critical section, and its next
      instruction is not the retry of a spin loop. */
  predicate Runnable(s: State, t: Thread) {
    Pc(s, t) != Idle && Step(s, t, false) != s
  }

  lemma SomeoneMoves(s: State, t: Thread) returns (u: Thread)
    requires Inv(s) && Pc(s, t) != Idle
    ensures Runnable(s, u)
  {
    u := t;
    if !Runnable(s, t) {
      assert t in s.queue;
      u := s.queue[0];
      assert LocalOk(s, u) && Pc(s, u) != Idle;
      if !Runnable(s, u) {
        assert Pc(s, u).SpinNext? && Next(s, u).None?;
        assert WaitsBehind(s, u, s.queue[1]);
        u := s.queue[1];
      }
    }
  }

  lemma NoLostHandoff(schedule: seq<Turn>, t: Thread)
    requires Pc(Run(schedule), t) != Idle
    ensures exists u: Thread :: Runnable(Run(schedule), u)
  {
    RunKeepsInv(schedule);
    var u := SomeoneMoves(Run(schedule), t);
  }

  predicate Nowaiters(s: State, t: Thread) { Next(s, t).None? }

  /** nowaiters never denies an empty line; it overlooks only a thread that has not yet linked itself in. */
  lemma NowaitersVersusQueue(s: State, t: Thread)
    requires Inv(s) && Holding(Pc(s, t))
    ensures !Nowaiters(s, t) ==> |s.queue| > 1
    ensures Nowaiters(s, t) ==> |s.queue| == 1 || Pc(s, s.queue[1]).SetLocked? || Pc(s, s.queue[1]).LinkPred?
  {
    HolderIsHead(s, t);
    assert |s.queue| > 1 ==> WaitsBehind(s, s.queue[0], s.queue[1]);
  }

  // ---------------------------------------------------------------- the lock as an object

  class Lock {
    var lock: Option<Thread>
    var status: map<Thread, int>
    var next: map<Thread, Option<Thread>>
    var pc: map<Thread, PC>
    ghost var queue: seq<Thread>

    ghost function Snapshot(): State reads this { State(lock, status, next, pc, queue) }
    ghost predicate Valid() reads this { Inv(Snapshot()) }

    constructor ()
      ensures Valid() && Snapshot() == INIT
    {
      lock, status, next, pc, queue := None, map[], map[], map[], [];
    }

    method Goto(t: Thread, to: PC)
      modifies this`pc
      ensures pc == old(pc)[t := to]
    {
      pc := pc[t := to];
    }

    /** The next instruction of acquire_c or tryacq_c. */
    method Acquire(t: Thread, try: bool)
      requires Valid() && !Holding(Pc(Snapshot(), t))
      modifies this
      ensures Valid() && Snapshot() == Step(old(Snapshot()), t, try)
    {
      StepKeepsInv(Snapshot(), t, try);
      hide Inv;
      match At(pc, t, Idle)
      case Idle => Goto(t, ClearNext(try));
      case ClearNext(b) =>
        next := next[t := None];
        Goto(t, if b then TryCas else SwapLock);
      case SwapLock =>
        var pred := lock;
        lock, queue := Some(t), queue + [t];
        Goto(t, if pred.Some? then SetLocked(pred.value) else Critical);
      case SetLocked(pred) =>
        status := status[t := LOCKED];
        Goto(t, LinkPred(pred));
      case LinkPred(pred) =>
        next := next[pred := Some(t)];
        Goto(t, SpinStatus);
      case SpinStatus =>
        if At(status, t, UNLOCKED) == UNLOCKED { Goto(t, Critical); }
      case TryCas =>
        if lock.None? {
          lock, queue := Some(t), queue + [t];
          Goto(t, Critical);
        } else {
          Goto(t, Idle);
        }
    }

    /** The next instruction of release_c. */
    method Release(t: Thread)
      requires Valid() && Holding(Pc(Snapshot(), t))
      modifies this
      ensures Valid() && Snapshot() == Step(old(Snapshot()), t, false)
    {
      StepKeepsInv(Snapshot(), t, false);
      HolderIsHead(Snapshot(), t);
      hide Inv;
      match At(pc, t, Idle)
      case Critical => Goto(t, ReadNext);
      case ReadNext => Goto(t, if At(next, t, None).None? then ReleaseCas else FetchNext);
      case ReleaseCas =>
        if lock == Some(t) {
          lock, queue := None, [];
          Goto(t, Idle);
        } else {
          Goto(t, SpinNext);
        }
      case SpinNext =>
        if At(next, t, None).Some? { Goto(t, FetchNext); }
      case FetchNext =>
        var succ := At(next, t, None);
        if succ.Some? { Goto(t, Handoff(succ.value)); }
      case Handoff(succ) =>
        status, queue := status[succ := UNLOCKED], queue[1..];
        Goto(t, Idle);
    }
  }
}
