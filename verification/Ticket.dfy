/**
 The ticket lock of zm_ticket.c with its 32-bit counters, one atomic instruction per step.  The
 counters wrap, so mutual exclusion depends on how many tickets are out at a time and on how many
 are drawn during a tryacq; this module says exactly how.
 */
module Ticket {
  import opened Cells

  type Thread = nat

  const WRAP := 0x1_0000_0000

  datatype PC =
    | Idle
    | Draw                // my_ticket := fetch_add(next_ticket, 1)
    | Spin(my: int)       // while now_serving != my_ticket
    | TryLoad             // my_ticket := next_ticket
    | TryCompare(my: int) // serving := now_serving; my_ticket == serving ?
    | TryCas(my: int)     // CAS(next_ticket, my_ticket, my_ticket + 1)
    | Critical
    | Release             // fetch_add(now_serving, 1)

  /** History variables, which count without wrap-around: who drew each ticket, how many have been given
      back, and the number of the ticket that a thread drew or saw last. */
  datatype State = State(next: int, serving: int, pc: map<Thread, PC>,
                         taker: seq<Thread>, served: nat, mine: map<Thread, nat>)

  const INIT := State(0, 0, map[], [], 0, map[])

  function Pc(s: State, t: Thread): PC { At(s.pc, t, Idle) }
  function Mine(s: State, t: Thread): nat { At(s.mine, t, 0) }
  function Goto(s: State, t: Thread, pc: PC): State { s.(pc := s.pc[t := pc]) }

  /** `t` takes the next ticket. */
  function Take(s: State, t: Thread): State {
    s.(next := (s.next + 1) % WRAP, taker := s.taker + [t], mine := s.mine[t := |s.taker|])
  }

  datatype Turn = Turn(t: Thread, try: bool)

  function Step(s: State, u: Turn): State {
    var t := u.t;
    match Pc(s, t)
    case Idle => Goto(s, t, if u.try then TryLoad else Draw)
    case Draw => Goto(Take(s, t), t, Spin(s.next))
    case Spin(my) => if s.serving == my then Goto(s, t, Critical) else s
    case TryLoad => Goto(s.(mine := s.mine[t := |s.taker|]), t, TryCompare(s.next))
    case TryCompare(my) => Goto(s, t, if s.serving == my then TryCas(my) else Idle)
    case TryCas(my) => if s.next == my then Goto(Take(s, t), t, Critical) else Goto(s, t, Idle)
    case Critical => Goto(s, t, Release)
    case Release => Goto(s.(serving := (s.serving + 1) % WRAP, served := s.served + 1), t, Idle)
  }

  /** The number of tickets drawn and not yet given back. */
  function Outstanding(s: State): int { |s.taker| - s.served }

  /** The step stays within the counters: a ticket is drawn, or compared with now_serving, only while
      fewer than WRAP are out, and a tryacq succeeds only if fewer than WRAP were drawn since its load. */
  predicate Fits(s: State, u: Turn) {
    match Pc(s, u.t)
    case Draw => Outstanding(s) < WRAP
    case TryCompare(_) => Outstanding(s) < WRAP
    case TryCas(_) => Outstanding(s) < WRAP && |s.taker| - Mine(s, u.t) < WRAP
    case _ => true
  }

  // ---------------------------------------------------------------- invariant

  predicate HasTicket(pc: PC) { pc.Spin? || pc.Critical? || pc.Release? }

  /** An outstanding ticket is with the thread that drew it, and is its only one. */
  predicate TicketOk(s: State, k: nat) {
    s.served <= k < |s.taker| ==> HasTicket(Pc(s, s.taker[k])) && Mine(s, s.taker[k]) == k
  }

  /** What a thread keeps in my_ticket is the wrapped number of the ticket it drew or saw. */
  predicate ThreadOk(s: State, t: Thread) {
    var n := Mine(s, t);
    && (HasTicket(Pc(s, t)) ==> s.served <= n < |s.taker| && s.taker[n] == t)
    && (match Pc(s, t)
        case Spin(my) => my == n % WRAP
        case Critical => n == s.served
        case Release => n == s.served
        case TryCompare(my) => my == n % WRAP && n <= |s.taker|
        case TryCas(my) => my == n % WRAP && n <= |s.taker| && (n == |s.taker| ==> Outstanding(s) == 0)
        case _ => true)
  }

  ghost predicate Inv(s: State) {
    && 0 <= Outstanding(s) <= WRAP
    && s.next == |s.taker| % WRAP && s.serving == s.served % WRAP
    && (forall k: nat :: TicketOk(s, k))
    && (forall t: Thread :: ThreadOk(s, t))
  }

  lemma Same(a: nat, b: nat)
    requires a <= b < a + WRAP
    ensures a % WRAP == b % WRAP <==> a == b
  {
    if a % WRAP == b % WRAP {
      assert b - a == WRAP * (b / WRAP - a / WRAP);
    }
  }

  lemma Next(a: nat)
    ensures (a % WRAP + 1) % WRAP == (a + 1) % WRAP
  {
  }

  /** A waiting thread passes its spin exactly when its ticket is the oldest one out, or a full WRAP behind it. */
  lemma SpinTest(s: State, t: Thread)
    requires Inv(s) && Pc(s, t).Spin?
    ensures s.serving == Pc(s, t).my <==> Mine(s, t) == s.served
  {
    assert ThreadOk(s, t);
    Same(s.served, Mine(s, t));
  }

  lemma StepKeepsTicket(s: State, u: Turn, k: nat)
    requires Inv(s) && Fits(s, u)
    ensures TicketOk(Step(s, u), k)
  {
    assert TicketOk(s, k) && ThreadOk(s, u.t);
    hide Inv;
  }

  lemma StepKeepsThread(s: State, u: Turn, t: Thread)
    requires Inv(s) && Fits(s, u)
    ensures ThreadOk(Step(s, u), t)
  {
    assert ThreadOk(s, t) && ThreadOk(s, u.t);
    match Pc(s, u.t)
    case Spin(_) => SpinTest(s, u.t); hide Inv; return;
    case TryCompare(_) =>
      if Mine(s, u.t) == |s.taker| { Same(s.served, |s.taker|); }
      hide Inv;
      return;
    case TryCas(_) => Same(Mine(s, u.t), |s.taker|); hide Inv; return;
    case Release => if HasTicket(Pc(s, t)) { assert TicketOk(s, s.served); } hide Inv; return;
    case _ => hide Inv; return;
  }

  lemma StepKeepsInv(s: State, u: Turn)
    requires Inv(s) && Fits(s, u)
    ensures Inv(Step(s, u))
  {
    var s' := Step(s, u);
    assert ThreadOk(s, u.t);
    Next(|s.taker|);
    Next(s.served);
    if Pc(s, u.t).TryCas? { Same(Mine(s, u.t), |s.taker|); }
    forall k: nat ensures TicketOk(s', k) { StepKeepsTicket(s, u, k); }
    forall t: Thread ensures ThreadOk(s', t) { StepKeepsThread(s, u, t); }
    hide TicketOk;
  }

  // ---------------------------------------------------------------- every run that fits

  function Run(schedule: seq<Turn>): State {
    if schedule == [] then INIT
    else Step(Run(schedule[..|schedule| - 1]), schedule[|schedule| - 1])
  }

  predicate AllFit(schedule: seq<Turn>) {
    schedule == [] ||
    (AllFit(schedule[..|schedule| - 1]) && Fits(Run(schedule[..|schedule| - 1]), schedule[|schedule| - 1]))
  }

  lemma {:induction false} RunKeepsInv(schedule: seq<Turn>)
    requires AllFit(schedule)
    ensures Inv(Run(schedule))
  {
    if schedule != [] {
      var before := schedule[..|schedule| - 1];
      RunKeepsInv(before);
      hide Inv, Fits, Step;
      StepKeepsInv(Run(before), schedule[|schedule| - 1]);
    }
  }

  /** While every step fits, at most one thread holds the lock: the one with the oldest ticket. */
  lemma OldestTicketHolds(schedule: seq<Turn>, t: Thread)
    requires AllFit(schedule) && Pc(Run(schedule), t).Critical?
    ensures var s := Run(schedule); s.served < |s.taker| && t == s.taker[s.served]
  {
    RunKeepsInv(schedule);
    assert ThreadOk(Run(schedule), t);
    hide Run;
  }

  /** Whether a draw fits is exactly whether the drawing thread would have to wait for those before it:
      with WRAP tickets out its spin test succeeds at once. */
  lemma DrawPassesAtOnce(s: State, t: Thread)
    requires Inv(s) && Pc(s, t).Draw? && Outstanding(s) > 0
    ensures Pc(Step(Step(s, Turn(t, false)), Turn(t, false)), t).Critical? <==> !Fits(s, Turn(t, false))
  {
    var n := |s.taker|;
    if Outstanding(s) < WRAP {
      Same(s.served, n);
    } else {
      assert n == s.served + WRAP;
    }
    hide Inv;
  }

  predicate Nowaiters(s: State) { (s.next - s.serving) % WRAP == 1 }

  /** nowaiters, asked by the holder, is true exactly if no other ticket is out. */
  lemma NowaitersIsExact(s: State)
    requires Inv(s) && Outstanding(s) >= 1
    ensures Nowaiters(s) <==> Outstanding(s) == 1
  {
    var a, b := |s.taker|, s.served;
    assert (a % WRAP - b % WRAP) % WRAP == (a - b) % WRAP by {
      assert a == WRAP * (a / WRAP) + a % WRAP && b == WRAP * (b / WRAP) + b % WRAP;
      assert a - b == WRAP * (a / WRAP - b / WRAP) + (a % WRAP - b % WRAP);
      ModShift(a % WRAP - b % WRAP, a / WRAP - b / WRAP);
    }
  }

  lemma ModShift(x: int, k: int)
    ensures (WRAP * k + x) % WRAP == x % WRAP
  {
    assert WRAP * k + x == WRAP * (k + x / WRAP) + x % WRAP;
  }

  // ---------------------------------------------------------------- what happens when a step does not fit

  /** The compare of a tryacq passes exactly if now_serving and the ticket seen are a multiple of WRAP
      apart.  While the lock is held its CAS passes exactly if a positive multiple of WRAP tickets was
      drawn since its load: never if the step fits. */
  lemma TryIsWrongOnlyOnWrap(s: State, t: Thread)
    requires Inv(s)
    ensures var s' := Step(s, Turn(t, false));
            && (Pc(s, t).TryCompare? ==> (Pc(s', t).TryCas? <==> (s.served - Mine(s, t)) % WRAP == 0))
            && (Pc(s, t).TryCas? ==> (Pc(s', t).Critical? <==> (|s.taker| - Mine(s, t)) % WRAP == 0))
            && (Pc(s, t).TryCas? && Outstanding(s) > 0 ==>
                  Mine(s, t) < |s.taker| && (Fits(s, Turn(t, false)) ==> !Pc(s', t).Critical?))
  {
    assert ThreadOk(s, t);
    if Pc(s, t).TryCas? {
      Congruent(Mine(s, t), |s.taker|);
    } else if Pc(s, t).TryCompare? {
      Congruent(Mine(s, t), s.served);
    }
    hide Inv;
  }

  lemma Congruent(a: nat, b: nat)
    ensures a % WRAP == b % WRAP <==> (b - a) % WRAP == 0
    ensures 0 < b - a < WRAP ==> (b - a) % WRAP != 0
  {
    var d := b - a;
    if a % WRAP == b % WRAP {
      assert d == WRAP * (b / WRAP - a / WRAP);
      ModShift(0, b / WRAP - a / WRAP);
    }
    if d % WRAP == 0 {
      assert b == WRAP * (d / WRAP) + a;
      ModShift(a, d / WRAP);
    }
  }

  /** A history of the counters without wrap: everything the code sees follows from these numbers. */
  ghost predicate Looks(s: State, drawn: nat, served: nat) {
    |s.taker| == drawn && s.served == served && s.next == drawn % WRAP && s.serving == served % WRAP
  }

  lemma RunExtends(schedule: seq<Turn>, u: Turn)
    ensures Run(schedule + [u]) == Step(Run(schedule), u)
  {
    assert (schedule + [u])[..|schedule|] == schedule;
  }

  /** Thread `t` calls acquire and draws a ticket. */
  function Drawn(before: seq<Turn>, t: Thread): seq<Turn> { before + [Turn(t, false)] + [Turn(t, false)] }

  /** Threads 0 to n - 1 call acquire and draw one ticket each. */
  function Flood(n: nat): seq<Turn> { if n == 0 then [] else Drawn(Flood(n - 1), n - 1) }

  lemma Draws(before: seq<Turn>, n: nat, t: Thread, v: Thread)
    requires Looks(Run(before), n, 0) && Pc(Run(before), t).Idle?
    ensures var s := Run(Drawn(before, t));
            Looks(s, n + 1, 0) && Pc(s, v) == if v == t then Spin(n % WRAP) else Pc(Run(before), v)
  {
    hide Run;
    RunExtends(before, Turn(t, false));
    RunExtends(before + [Turn(t, false)], Turn(t, false));
    Next(n);
  }

  lemma {:induction false} FloodState(n: nat, t: Thread)
    ensures Looks(Run(Flood(n)), n, 0)
    ensures Pc(Run(Flood(n)), t) == if t < n then Spin(t % WRAP) else Idle
  {
    hide Run, Looks, Drawn, Pc;
    if n > 0 {
      FloodState(n - 1, t);
      FloodState(n - 1, n - 1);
      Draws(Flood(n - 1), n - 1, n - 1, t);
    } else {
      Nothing(t);
    }
  }

  lemma Nothing(t: Thread)
    ensures Looks(Run([]), 0, 0) && Pc(Run([]), t).Idle? && Calls([]) == 0
  {
  }

  /** With w + 1 threads in acquire, w a positive multiple of 2^32, the first and the last enter together. */
  lemma TooManyThreads(w: nat)
    requires 0 < w && w % WRAP == 0
    ensures var s := Run(Flood(w + 1) + [Turn(0, false)] + [Turn(w, false)]);
            Pc(s, 0).Critical? && Pc(s, w).Critical?
  {
    var start := Flood(w + 1);
    FloodState(w + 1, 0);
    FloodState(w + 1, w);
    hide Flood;
    RunExtends(start, Turn(0, false));
    RunExtends(start + [Turn(0, false)], Turn(w, false));
    var s := Run(start);
    hide Run;
    assert Pc(s, 0) == Spin(0) && Pc(s, w) == Spin(0);
    var s0 := Step(s, Turn(0, false));
    assert Pc(s0, 0) == Critical && Pc(s0, w) == Spin(0) && s0.serving == 0;
  }

  /** Thread 1 acquires and releases. */
  function Round(before: seq<Turn>): seq<Turn> {
    before + [Turn(1, false)] + [Turn(1, false)] + [Turn(1, false)] + [Turn(1, false)] + [Turn(1, false)]
  }

  /** Thread 0 calls tryacq and stops before its CAS; thread 1 then acquires and releases n times. */
  function Overtaken(n: nat): seq<Turn> {
    if n == 0 then [Turn(0, true)] + [Turn(0, true)] + [Turn(0, true)]
    else Round(Overtaken(n - 1))
  }

  lemma Acquires(before: seq<Turn>, n: nat)
    requires Looks(Run(before), n, n) && Pc(Run(before), 1).Idle?
    ensures var s := Run(before + [Turn(1, false)] + [Turn(1, false)] + [Turn(1, false)]);
            Looks(s, n + 1, n) && Pc(s, 1).Critical? && Pc(s, 0) == Pc(Run(before), 0)
  {
    var u := Turn(1, false);
    hide Run;
    RunExtends(before, u);
    RunExtends(before + [u], u);
    RunExtends(before + [u] + [u], u);
    AcquireSteps(Run(before), n);
  }

  lemma AcquireSteps(s: State, n: nat)
    requires Looks(s, n, n) && Pc(s, 1).Idle?
    ensures var u := Turn(1, false);
            var s' := Step(Step(Step(s, u), u), u);
            Looks(s', n + 1, n) && Pc(s', 1).Critical? && Pc(s', 0) == Pc(s, 0)
  {
    var u := Turn(1, false);
    Next(n);
    assert Pc(Step(s, u), 1).Draw? && Looks(Step(s, u), n, n);
    assert Pc(Step(Step(s, u), u), 1) == Spin(n % WRAP) && Looks(Step(Step(s, u), u), n + 1, n);
  }

  lemma Releases(before: seq<Turn>, n: nat)
    requires Looks(Run(before), n + 1, n) && Pc(Run(before), 1).Critical?
    ensures var s := Run(before + [Turn(1, false)] + [Turn(1, false)]);
            Looks(s, n + 1, n + 1) && Pc(s, 1).Idle? && Pc(s, 0) == Pc(Run(before), 0)
  {
    var u := Turn(1, false);
    hide Run;
    RunExtends(before, u);
    RunExtends(before + [u], u);
    Next(n);
  }

  lemma RoundState(before: seq<Turn>, n: nat)
    requires Looks(Run(before), n, n) && Pc(Run(before), 1).Idle?
    ensures var s := Run(Round(before));
            Looks(s, n + 1, n + 1) && Pc(s, 1).Idle? && Pc(s, 0) == Pc(Run(before), 0)
  {
    var u := Turn(1, false);
    hide Run, Looks;
    Acquires(before, n);
    Releases(before + [u] + [u] + [u], n);
  }

  lemma TryState()
    ensures var u := Turn(0, true);
            var s := Run([u] + [u] + [u]);
            Looks(s, 0, 0) && Pc(s, 0) == TryCas(0) && Pc(s, 1).Idle?
  {
    var u := Turn(0, true);
    assert Run([u]) == Step(INIT, u);
    RunExtends([u], u);
    RunExtends([u] + [u], u);
  }

  lemma {:induction false} OvertakenState(n: nat)
    ensures Looks(Run(Overtaken(n)), n, n)
    ensures Pc(Run(Overtaken(n)), 0) == TryCas(0) && Pc(Run(Overtaken(n)), 1).Idle?
  {
    hide Run, Looks, Round, Pc;
    if n == 0 {
      TryState();
    } else {
      OvertakenState(n - 1);
      RoundState(Overtaken(n - 1), n - 1);
    }
  }

  /** Two threads suffice if one of them is overtaken by 2^32 acquisitions inside its tryacq: its CAS
      then succeeds while the other holds the lock. */
  lemma OvertakenTryacq()
    ensures var u := Turn(1, false);
            var s := Run(Overtaken(WRAP - 1) + [u] + [u] + [u] + [Turn(0, false)]);
            Pc(s, 0).Critical? && Pc(s, 1).Critical?
  {
    var before, u := Overtaken(WRAP - 1), Turn(1, false);
    OvertakenState(WRAP - 1);
    hide Overtaken;
    Acquires(before, WRAP - 1);
    RunExtends(before + [u] + [u] + [u], Turn(0, false));
    hide Run;
    assert WRAP % WRAP == 0;
  }

  // ---------------------------------------------------------------- exactly when the lock excludes

  ghost predicate Exclusive(s: State) {
    forall t: Thread, u: Thread :: Pc(s, t).Critical? && Pc(s, u).Critical? ==> t == u
  }

  /** Only the first `threads` threads take part, and tryacq is called only if `tries`. */
  predicate Obeys(schedule: seq<Turn>, threads: nat, tries: bool) {
    forall k :: 0 <= k < |schedule| ==> schedule[k].t < threads && (schedule[k].try ==> tries)
  }

  /** How many calls of acquire and tryacq a schedule starts. */
  function Calls(schedule: seq<Turn>): nat {
    if schedule == [] then 0
    else
      var before := schedule[..|schedule| - 1];
      Calls(before) + if Pc(Run(before), schedule[|schedule| - 1].t).Idle? then 1 else 0
  }

  predicate NotDrawn(pc: PC) { pc.Draw? || pc.TryLoad? || pc.TryCompare? || pc.TryCas? }

  /** The threads inside a call that may still draw a ticket. */
  function Pending(s: State): set<Thread> { set t | t in s.pc && NotDrawn(s.pc[t]) }

  predicate InTry(pc: PC) { pc.TryLoad? || pc.TryCompare? || pc.TryCas? }

  predicate ThreadAllowed(s: State, t: Thread, threads: nat, tries: bool) {
    (t >= threads ==> Pc(s, t).Idle?) && (InTry(Pc(s, t)) ==> tries)
  }

  lemma {:induction false} RunAllowed(schedule: seq<Turn>, threads: nat, tries: bool, t: Thread)
    requires Obeys(schedule, threads, tries)
    ensures ThreadAllowed(Run(schedule), t, threads, tries)
  {
    if schedule != [] {
      var before := schedule[..|schedule| - 1];
      RunAllowed(before, threads, tries, t);
    }
  }

  lemma PendingAfter(s: State, s': State, t: Thread)
    requires s'.pc == s.pc[t := Pc(s', t)]
    ensures Pending(s') == if NotDrawn(Pc(s', t)) then Pending(s) + {t} else Pending(s) - {t}
    ensures NotDrawn(Pc(s, t)) <==> t in Pending(s)
  {
  }

  lemma StepCalls(s: State, u: Turn)
    ensures var s' := Step(s, u);
            |s'.taker| + |Pending(s')| <= |s.taker| + |Pending(s)| + if Pc(s, u.t).Idle? then 1 else 0
  {
    if Step(s, u) != s {
      PendingAfter(s, Step(s, u), u.t);
      hide Pending;
    }
  }

  /** A call draws at most one ticket. */
  lemma {:induction false} RunCalls(schedule: seq<Turn>)
    ensures |Run(schedule).taker| + |Pending(Run(schedule))| <= Calls(schedule)
  {
    if schedule != [] {
      var before := schedule[..|schedule| - 1];
      RunCalls(before);
      hide Step, Pending;
      StepCalls(Run(before), schedule[|schedule| - 1]);
    } else {
      assert Pending(INIT) == {};
    }
  }

  /** A step after at most WRAP calls fits. */
  lemma FewCallsFit(s: State, u: Turn, calls: nat)
    requires Inv(s) && |s.taker| + |Pending(s)| <= calls <= WRAP
    ensures Fits(s, u)
  {
    if NotDrawn(Pc(s, u.t)) {
      assert u.t in Pending(s);
      assert |Pending(s)| > 0;
    }
    hide Inv;
  }

  function Below(n: nat): (r: set<Thread>)
    ensures |r| == n && forall t: Thread :: t in r <==> t < n
  {
    if n == 0 then {} else Below(n - 1) + {n - 1}
  }

  lemma SubsetSize(a: set<Thread>, b: set<Thread>)
    requires a <= b
    ensures |a| <= |b|
  {
    assert b == a + (b - a);
  }

  function Takers(s: State, k: nat): set<Thread>
    requires k <= |s.taker|
  {
    set j | s.served <= j < k :: s.taker[j]
  }

  /** Outstanding tickets are with different threads. */
  lemma {:induction false} TakersDiffer(s: State, k: nat)
    requires Inv(s) && s.served <= k <= |s.taker|
    ensures |Takers(s, k)| == k - s.served
  {
    if k > s.served {
      TakersDiffer(s, k - 1);
      assert Takers(s, k) == Takers(s, k - 1) + {s.taker[k - 1]};
      forall j: nat | s.served <= j < k - 1 ensures s.taker[j] != s.taker[k - 1] {
        assert TicketOk(s, j) && TicketOk(s, k - 1);
      }
    } else {
      assert Takers(s, k) == {};
    }
  }

  /** With at most WRAP threads only the CAS of a tryacq may not fit. */
  lemma FewThreadsFit(s: State, u: Turn, threads: nat)
    requires Inv(s) && u.t < threads <= WRAP && !Pc(s, u.t).TryCas?
    requires forall t: Thread :: t >= threads ==> Pc(s, t).Idle?
    ensures Fits(s, u)
  {
    if NotDrawn(Pc(s, u.t)) {
      var takers := Takers(s, |s.taker|);
      TakersDiffer(s, |s.taker|);
      forall t | t in takers ensures t in Below(threads) - {u.t} {
        var j: nat :| s.served <= j < |s.taker| && s.taker[j] == t;
        assert TicketOk(s, j);
      }
      SubsetSize(takers, Below(threads) - {u.t});
    }
    hide Inv;
  }

  lemma {:induction false} RunFits(schedule: seq<Turn>, threads: nat, tries: bool)
    requires Obeys(schedule, threads, tries)
    requires Calls(schedule) <= WRAP || (threads <= WRAP && !tries)
    ensures AllFit(schedule)
  {
    if schedule != [] {
      var before, u := schedule[..|schedule| - 1], schedule[|schedule| - 1];
      RunFits(before, threads, tries);
      RunKeepsInv(before);
      var s := Run(before);
      hide Run, Inv, Fits;
      if Calls(schedule) <= WRAP {
        RunCalls(before);
        FewCallsFit(s, u, Calls(before));
      } else {
        RunAllowed(before, threads, tries, u.t);
        forall t: Thread | t >= threads ensures Pc(s, t).Idle? { RunAllowed(before, threads, tries, t); }
        FewThreadsFit(s, u, threads);
      }
    }
  }

  /** What a caller has to know: how many threads use the lock, whether tryacq is called, and how many
      calls there will be. */
  predicate Small(threads: nat, tries: bool, calls: nat) {
    threads <= 1 || calls <= WRAP || (threads <= WRAP && !tries)
  }

  lemma SmallExcludes(schedule: seq<Turn>, threads: nat, tries: bool)
    requires Obeys(schedule, threads, tries) && Small(threads, tries, Calls(schedule))
    ensures Exclusive(Run(schedule))
  {
    var s := Run(schedule);
    hide Run, Calls;
    if threads > 1 { RunFits(schedule, threads, tries); }
    hide AllFit;
    forall t: Thread, u: Thread | Pc(s, t).Critical? && Pc(s, u).Critical? ensures t == u {
      if threads <= 1 {
        RunAllowed(schedule, threads, tries, t);
        RunAllowed(schedule, threads, tries, u);
      } else {
        OldestTicketHolds(schedule, t);
        OldestTicketHolds(schedule, u);
      }
    }
  }

  lemma CallsExtend(schedule: seq<Turn>, u: Turn)
    ensures Calls(schedule + [u]) == Calls(schedule) + if Pc(Run(schedule), u.t).Idle? then 1 else 0
  {
    assert (schedule + [u])[..|schedule|] == schedule;
  }

  lemma {:induction false} FloodObeys(n: nat, threads: nat)
    requires n <= threads
    ensures Obeys(Flood(n), threads, false)
  {
    if n > 0 { FloodObeys(n - 1, threads); }
  }

  lemma DrawCalls(before: seq<Turn>, t: Thread)
    requires Pc(Run(before), t).Idle?
    ensures Calls(Drawn(before, t)) == Calls(before) + 1
  {
    var u := Turn(t, false);
    CallsExtend(before, u);
    CallsExtend(before + [u], u);
    RunExtends(before, u);
    hide Run, Calls;
    assert Pc(Step(Run(before), u), u.t).Draw?;
  }

  lemma {:induction false} FloodCalls(n: nat)
    ensures Calls(Flood(n)) == n
  {
    hide Run, Calls, Looks, Drawn, Pc;
    if n > 0 {
      FloodCalls(n - 1);
      FloodState(n - 1, n - 1);
      DrawCalls(Flood(n - 1), n - 1);
    } else {
      Nothing(0);
    }
  }

  lemma ObeysExtends(schedule: seq<Turn>, u: Turn, threads: nat, tries: bool)
    requires Obeys(schedule, threads, tries) && u.t < threads && (u.try ==> tries)
    ensures Obeys(schedule + [u], threads, tries)
  {
  }

  lemma FloodEnds(w: nat)
    requires 0 < w
    ensures var schedule := Flood(w + 1) + [Turn(0, false)] + [Turn(w, false)];
            Calls(schedule) == w + 1 && Obeys(schedule, w + 1, false)
  {
    var start, u, v := Flood(w + 1), Turn(0, false), Turn(w, false);
    FloodCalls(w + 1);
    FloodObeys(w + 1, w + 1);
    FloodState(w + 1, 0);
    FloodState(w + 1, w);
    CallsExtend(start, u);
    CallsExtend(start + [u], v);
    RunExtends(start, u);
    var s := Run(start);
    hide Run, Calls, Flood, Looks, Obeys;
    assert Pc(s, 0).Spin? && Pc(s, w).Spin?;
    assert Pc(Step(s, u), w).Spin?;
    ObeysExtends(start, u, w + 1, false);
    ObeysExtends(start + [u], v, w + 1, false);
  }

  lemma AcquireCalls(before: seq<Turn>, n: nat)
    requires Looks(Run(before), n, n) && Pc(Run(before), 1).Idle?
    ensures var u := Turn(1, false);
            Calls(before + [u] + [u] + [u]) == Calls(before) + 1
  {
    var u := Turn(1, false);
    RunExtends(before, u);
    RunExtends(before + [u], u);
    CallsExtend(before, u);
    CallsExtend(before + [u], u);
    CallsExtend(before + [u] + [u], u);
    var s := Run(before);
    hide Run, Calls, Looks;
    assert Pc(Step(s, u), 1).Draw?;
    assert Pc(Step(Step(s, u), u), 1).Spin?;
  }

  lemma ReleaseCalls(before: seq<Turn>)
    requires Pc(Run(before), 1).Critical?
    ensures var u := Turn(1, false);
            Calls(before + [u] + [u]) == Calls(before)
  {
    var u := Turn(1, false);
    RunExtends(before, u);
    CallsExtend(before, u);
    CallsExtend(before + [u], u);
    hide Run, Calls;
  }

  lemma RoundCalls(before: seq<Turn>, n: nat)
    requires Looks(Run(before), n, n) && Pc(Run(before), 1).Idle?
    ensures Calls(Round(before)) == Calls(before) + 1
  {
    var u := Turn(1, false);
    hide Run, Calls, Step, Looks;
    AcquireCalls(before, n);
    Acquires(before, n);
    ReleaseCalls(before + [u] + [u] + [u]);
  }

  lemma {:induction false} OvertakenObeys(n: nat)
    ensures Obeys(Overtaken(n), 2, true)
  {
    if n > 0 { OvertakenObeys(n - 1); }
  }

  lemma TryCalls()
    ensures var u := Turn(0, true); Calls([u] + [u] + [u]) == 1
  {
    var u := Turn(0, true);
    assert Run([]) == INIT && Run([u]) == Step(INIT, u) && Calls([u]) == 1;
    RunExtends([u], u);
    CallsExtend([u], u);
    CallsExtend([u] + [u], u);
    hide Run, Calls;
  }

  lemma {:induction false} OvertakenCalls(n: nat)
    ensures Calls(Overtaken(n)) == n + 1
  {
    hide Run, Calls, Looks, Round, Pc;
    if n == 0 {
      TryCalls();
    } else {
      OvertakenCalls(n - 1);
      OvertakenState(n - 1);
      RoundCalls(Overtaken(n - 1), n - 1);
    }
  }

  lemma OvertakenEnds()
    ensures var u := Turn(1, false);
            var schedule := Overtaken(WRAP - 1) + [u] + [u] + [u] + [Turn(0, false)];
            Calls(schedule) == WRAP + 1 && Obeys(schedule, 2, true)
  {
    var before, u := Overtaken(WRAP - 1), Turn(1, false);
    OvertakenCalls(WRAP - 1);
    OvertakenObeys(WRAP - 1);
    OvertakenState(WRAP - 1);
    AcquireCalls(before, WRAP - 1);
    Acquires(before, WRAP - 1);
    CallsExtend(before + [u] + [u] + [u], Turn(0, false));
    hide Run, Calls, Overtaken;
  }

  lemma ObeysMore(schedule: seq<Turn>, few: nat, threads: nat, tries: bool)
    requires Obeys(schedule, few, tries) && few <= threads
    ensures Obeys(schedule, threads, tries)
  {
  }

  /** A schedule within the caller's limits that puts two threads inside. */
  lemma LargeFails(threads: nat, tries: bool, calls: nat) returns (schedule: seq<Turn>)
    requires !Small(threads, tries, calls)
    ensures Obeys(schedule, threads, tries) && Calls(schedule) <= calls && !Exclusive(Run(schedule))
  {
    if tries {
      var u := Turn(1, false);
      schedule := Overtaken(WRAP - 1) + [u] + [u] + [u] + [Turn(0, false)];
      hide Run, Calls, Overtaken, Obeys;
      OvertakenTryacq();
      OvertakenEnds();
      ObeysMore(schedule, 2, threads, true);
    } else {
      schedule := Flood(WRAP + 1) + [Turn(0, false)] + [Turn(WRAP, false)];
      hide Run, Calls, Flood, Obeys;
      TooManyThreads(WRAP);
      FloodEnds(WRAP);
      ObeysMore(schedule, WRAP + 1, threads, false);
    }
  }

  /** All runs of so many threads with so many calls keep the lock exclusive exactly if there is at most
      one thread, or at most 2^32 calls, or at most 2^32 threads and no tryacq. */
  lemma ExcludesExactly(threads: nat, tries: bool, calls: nat)
    ensures Small(threads, tries, calls) <==>
            forall schedule :: Obeys(schedule, threads, tries) && Calls(schedule) <= calls ==> Exclusive(Run(schedule))
  {
    if Small(threads, tries, calls) {
      forall schedule | Obeys(schedule, threads, tries) && Calls(schedule) <= calls ensures Exclusive(Run(schedule)) {
        SmallExcludes(schedule, threads, tries);
      }
    } else {
      var schedule := LargeFails(threads, tries, calls);
    }
  }

  // ---------------------------------------------------------------- the lock as an object

  /** A lock for `threads` threads.  `taker`, `served` and `mine` are history: the code's own words are
      the two counters. */
  class Lock {
    const threads: nat
    var nextTicket: int
    var nowServing: int
    var pc: map<Thread, PC>
    ghost var taker: seq<Thread>
    ghost var served: nat
    ghost var mine: map<Thread, nat>

    ghost function Snapshot(): State
      reads this
    {
      State(nextTicket, nowServing, pc, taker, served, mine)
    }

    ghost predicate Valid()
      reads this
    {
      Inv(Snapshot()) && forall t :: t in pc ==> t < threads
    }

    constructor (threads: nat)
      ensures Valid() && Snapshot() == INIT && this.threads == threads
    {
      this.threads := threads;
      nextTicket, nowServing, pc, taker, served, mine := 0, 0, map[], [], 0, map[];
    }

    /** The next instruction of zm_ticket_acquire: with at most 2^32 threads it always keeps the invariant. */
    method Acquire(t: Thread)
      requires Valid() && t < threads
      requires At(pc, t, Idle).Idle? || At(pc, t, Idle).Draw? || At(pc, t, Idle).Spin?
      modifies this
      ensures Snapshot() == Step(old(Snapshot()), Turn(t, false))
      ensures threads <= WRAP || old(Fits(Snapshot(), Turn(t, false))) ==> Valid()
    {
      if threads <= WRAP { FewThreadsFit(Snapshot(), Turn(t, false), threads); }
      if Fits(Snapshot(), Turn(t, false)) { StepKeepsInv(Snapshot(), Turn(t, false)); }
      hide Inv, Fits;
      match At(pc, t, Idle)
      case Idle => pc := pc[t := Draw];
      case Draw =>
        pc := pc[t := Spin(nextTicket)];
        Take(t);
      case Spin(my) => if nowServing == my { pc := pc[t := Critical]; }
    }

    /** fetch_add(next_ticket, 1), with its history. */
    method Take(t: Thread)
      modifies this`nextTicket, this`taker, this`mine
      ensures nextTicket == (old(nextTicket) + 1) % WRAP
      ensures taker == old(taker) + [t] && mine == old(mine)[t := |old(taker)|]
    {
      nextTicket := (nextTicket + 1) % WRAP;
      taker, mine := taker + [t], mine[t := |taker|];
    }

    /** The next instruction of zm_ticket_tryacq: only its CAS may be overtaken by the counter. */
    method TryAcquire(t: Thread)
      requires Valid() && t < threads
      requires var pc := At(pc, t, Idle); pc.Idle? || pc.TryLoad? || pc.TryCompare? || pc.TryCas?
      modifies this
      ensures Snapshot() == Step(old(Snapshot()), Turn(t, true))
      ensures threads <= WRAP && !old(At(pc, t, Idle).TryCas?) ==> Valid()
      ensures old(Fits(Snapshot(), Turn(t, true))) ==> Valid()
    {
      if threads <= WRAP && !At(pc, t, Idle).TryCas? { FewThreadsFit(Snapshot(), Turn(t, true), threads); }
      if Fits(Snapshot(), Turn(t, true)) { StepKeepsInv(Snapshot(), Turn(t, true)); }
      hide Inv, Fits;
      match At(pc, t, Idle)
      case Idle => pc := pc[t := TryLoad];
      case TryLoad =>
        pc := pc[t := TryCompare(nextTicket)];
        mine := mine[t := |taker|];
      case TryCompare(my) => pc := pc[t := if nowServing == my then TryCas(my) else Idle];
      case TryCas(my) =>
        if nextTicket == my {
          pc := pc[t := Critical];
          Take(t);
        } else {
          pc := pc[t := Idle];
        }
    }

    /** The next instruction of zm_ticket_release. */
    method GiveBack(t: Thread)
      requires Valid() && t < threads && (At(pc, t, Idle).Critical? || At(pc, t, Idle).Release?)
      modifies this
      ensures Valid() && Snapshot() == Step(old(Snapshot()), Turn(t, false))
    {
      StepKeepsInv(Snapshot(), Turn(t, false));
      hide Inv;
      match At(pc, t, Idle)
      case Critical => pc := pc[t := Release];
      case Release =>
        pc := pc[t := Idle];
        nowServing, served := (nowServing + 1) % WRAP, served + 1;
    }

    /** zm_ticket_nowaiters, asked by the holder `t`. */
    method AskNowaiters(t: Thread) returns (alone: bool)
      requires Valid() && At(pc, t, Idle).Critical?
      ensures alone <==> |taker| == served + 1
    {
      alone := (nextTicket - nowServing) % WRAP == 1;
      assert ThreadOk(Snapshot(), t);
      NowaitersIsExact(Snapshot());
    }
  }
}
