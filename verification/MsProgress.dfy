/**
 The Michael-Scott queue is lock-free: a thread goes on making for the end of its call unless a weak CAS of
 its own fails for no reason or other threads get on with the queue.
 */
module MsProgress {
  import opened Cells
  import opened MsQueue
  import opened MsCalls
  import opened ScanSpec

  /** How far the threads together have got: nodes linked, taken off and passed by the tail, and hazard records. */
  function Progress(s: State): nat { |s.g.log| + s.g.hi + s.g.ti + |s.records| }

  /** What a thread has done since its last call began, and what has happened to it: instructions of its own,
      those with a spurious failure apart, and the progress of the other threads. */
  datatype Effort = Effort(own: nat, spurious: nat, others: nat)

  function LastEffort(schedule: seq<Turn>, t: Thread): Effort {
    if schedule == [] then Effort(0, 0, 0)
    else
      var before, u := schedule[..|schedule| - 1], schedule[|schedule| - 1];
      var s, e := Run(before), LastEffort(before, t);
      if u.t == t then
        if Pc(s, t).Idle? then Effort(0, 0, 0)
        else if u.spurious then e.(spurious := e.spurious + 1)
        else e.(own := e.own + 1)
      else
        var more := Progress(Step(s, u)) - Progress(s);
        e.(others := e.others + if more >= 0 then more else 0)
  }

  /** Nothing that counts as progress is ever undone. */
  ghost predicate Grown(s: State, s': State) {
    && s.g.log <= s'.g.log && s.g.hi <= s'.g.hi && s.g.ti <= s'.g.ti && |s.records| <= |s'.records|
  }

  /** The words and links of the queue and the hazard list. */
  ghost predicate SameShared(s: State, s': State) {
    s'.q.head == s.q.head && s'.q.tail == s.q.tail && s'.records == s.records
    && forall n: Node :: Next(s', n) == Next(s, n)
  }

  lemma EnqGrows(s: State, u: Turn)
    requires Pc(s, u.t).Enq?
    ensures Grown(s, Step(s, u)) && (Progress(Step(s, u)) == Progress(s) ==> SameShared(s, Step(s, u)))
  {
    hide DeqStep, RetireStep, RegStep;
    match Pc(s, u.t).eop
    case CasNext(_) => return;
    case Help(_, _) => return;
    case Swing(_) => return;
    case _ => return;
  }

  lemma DeqGrows(s: State, u: Turn)
    requires Pc(s, u.t).Deq?
    ensures Grown(s, Step(s, u)) && (Progress(Step(s, u)) == Progress(s) ==> SameShared(s, Step(s, u)))
  {
    hide EnqStep, RetireStep, RegStep;
    match Pc(s, u.t).dop
    case HelpD(_, _) => return;
    case CasHead(_, _) => return;
    case _ => return;
  }

  lemma RestGrows(s: State, u: Turn)
    requires Inv(s) && !Pc(s, u.t).Deq? && !Pc(s, u.t).Enq?
    ensures Grown(s, Step(s, u)) && (Progress(Step(s, u)) == Progress(s) ==> SameShared(s, Step(s, u)))
  {
    assert NodeOk(s, s.q.unused);
    hide Inv, Kept, EnqStep, DeqStep;
    match Pc(s, u.t)
    case Reg(_, _) => hide RetireStep; return;
    case Retire(_) => hide RegStep; return;
    case Alloc(_) => return;
    case _ => return;
  }

  lemma StepGrows(s: State, u: Turn)
    requires Inv(s)
    ensures Grown(s, Step(s, u)) && (Progress(Step(s, u)) == Progress(s) ==> SameShared(s, Step(s, u)))
  {
    hide Inv, Step, Grown, SameShared;
    match Pc(s, u.t)
    case Enq(_, _) => EnqGrows(s, u);
    case Deq(_) => DeqGrows(s, u);
    case _ => RestGrows(s, u);
  }

  lemma SameLoops(s: State, s': State, r: nat)
    requires SameShared(s, s')
    ensures LoopLeft(s') == LoopLeft(s) && DeqLoopLeft(s', r) == DeqLoopLeft(s, r)
  {
  }

  lemma SameEnq(s: State, s': State, op: EnqOp)
    requires SameShared(s, s')
    ensures EnqLeft(s', op) == EnqLeft(s, op)
  {
    SameLoops(s, s', 0);
    hide LoopLeft;
    match op
    case Publish(_) => return;
    case Validate(_) => return;
    case _ => return;
  }

  lemma SameDeq(s: State, s': State, op: DeqOp, r: nat)
    requires SameShared(s, s')
    ensures DeqLeft(s', op, r) == DeqLeft(s, op, r)
  {
    SameLoops(s, s', r);
    hide DeqLoopLeft;
    match op
    case LoadNextD(_, _) => return;
    case PublishNext(_, _, _) => return;
    case _ => return;
  }

  /** What a thread has left to do depends on its own state and the shared words only. */
  lemma SameLeft(s: State, s': State, t: Thread)
    requires SameShared(s, s') && Th(s', t) == Th(s, t)
    ensures Left(s', t) == Left(s, t)
  {
    var r := |s.records| + if Th(s, t).mine then 0 else 1;
    SameLoops(s, s', r);
    match Pc(s, t) {
      case Enq(_, op) => SameEnq(s, s', op);
      case Deq(op) => SameDeq(s, s', op, r);
      case _ =>
    }
    hide LoopLeft, DeqLoopLeft, EnqLeft, DeqLeft;
    match Pc(s, t)
    case Reg(_, _) => return;
    case Retire(_) => return;
    case _ => return;
  }

  /** The most a call may still need when a thread is disturbed. */
  function Most(s: State): nat { 4 * |s.records| + 31 }

  predicate Paid(s: State, t: Thread, e: Effort) {
    e.own + Left(s, t) <= Most(s) * (1 + e.spurious + e.others)
  }

  lemma Times(k: nat, a: nat, b: nat)
    requires a <= b
    ensures k * a <= k * b && a * k <= b * k
  {
  }

  lemma PaidAfter(own: nat, left: nat, most: nat, times: nat, own': nat, left': nat, most': nat, times': nat)
    requires own + left <= most * times && most <= most' && times <= times' && own <= own' <= own + 1
    requires (own' + left' <= own + left) || (own' == own && times < times' && left' <= most')
    ensures own' + left' <= most' * times'
  {
    Times(times, most, most');
    if times < times' {
      Times(most', times + 1, times');
      assert most' * (times + 1) == most' * times + most';
    }
    Times(most', times, times');
  }

  /** An instruction of `t` itself. */
  lemma OwnPays(s: State, u: Turn, e: Effort)
    requires Inv(s) && Inv(Step(s, u)) && TodoOk(Step(s, u), u.t) && !Pc(s, u.t).Idle? && Paid(s, u.t, e)
    ensures Paid(Step(s, u), u.t, if u.spurious then e.(spurious := e.spurious + 1) else e.(own := e.own + 1))
  {
    StepGrows(s, u);
    LeftBounded(Step(s, u), u.t);
    if !u.spurious { StepShortens(s, u); }
    hide Inv, Step, Left, TodoOk;
    PaidAfter(e.own, Left(s, u.t), Most(s), 1 + e.spurious + e.others,
              if u.spurious then e.own else e.own + 1, Left(Step(s, u), u.t), Most(Step(s, u)),
              1 + e.spurious + e.others + if u.spurious then 1 else 0);
  }

  lemma OthersPaid(s: State, s': State, t: Thread, e: Effort)
    requires Paid(s, t, e) && Grown(s, s') && Left(s', t) <= Most(s')
    requires Progress(s') == Progress(s) ==> Left(s', t) == Left(s, t)
    ensures Progress(s) <= Progress(s')
    ensures Paid(s', t, e.(others := e.others + (Progress(s') - Progress(s))))
  {
    var more := Progress(s') - Progress(s);
    hide Left;
    PaidAfter(e.own, Left(s, t), Most(s), 1 + e.spurious + e.others, e.own, Left(s', t), Most(s'),
              1 + e.spurious + e.others + more);
    hide *;
    assert 1 + e.spurious + e.others + more == 1 + e.spurious + (e.others + more);
  }

  lemma OthersPay(s: State, u: Turn, t: Thread, e: Effort)
    requires Inv(s) && u.t != t && TodoOk(Step(s, u), t) && Paid(s, t, e)
    ensures Progress(s) <= Progress(Step(s, u))
    ensures Paid(Step(s, u), t, e.(others := e.others + (Progress(Step(s, u)) - Progress(s))))
  {
    StepGrows(s, u);
    OthersUntouched(s, u, t);
    LeftBounded(Step(s, u), t);
    if Progress(Step(s, u)) == Progress(s) { SameLeft(s, Step(s, u), t); }
    OthersPaid(s, Step(s, u), t, e) by { hide Inv, Step, Left, TodoOk, SameShared; }
    hide *;
  }

  lemma CallStartsPaid(s: State, t: Thread)
    requires TodoOk(s, t)
    ensures Paid(s, t, Effort(0, 0, 0))
  {
    LeftBounded(s, t);
    hide Left;
  }

  lemma {:induction false} RunPays(schedule: seq<Turn>, t: Thread)
    ensures Paid(Run(schedule), t, LastEffort(schedule, t))
  {
    RunKeepsTodo(schedule, t);
    RunKeepsInv(schedule);
    hide Inv, Step, Paid, TodoOk, Progress;
    if schedule == [] {
      CallStartsPaid(Run(schedule), t);
    } else {
      var before, u := schedule[..|schedule| - 1], schedule[|schedule| - 1];
      var s := Run(before);
      RunPays(before, t);
      RunKeepsInv(before);
      if u.t != t {
        OthersPay(s, u, t, LastEffort(before, t));
      } else if Pc(s, t).Idle? {
        CallStartsPaid(Run(schedule), t);
      } else {
        OwnPays(s, u, LastEffort(before, t));
      }
    }
  }

  /** A call executes at most 4 * N + 31 instructions, N being the number of hazard records, for each time it is
      disturbed, and as many besides.  To disturb it another thread must link or take off a node, swing the tail
      or join the hazard list, or a weak CAS of its own must fail for no reason. */
  lemma LockFree(schedule: seq<Turn>, t: Thread)
    ensures var e, s := LastEffort(schedule, t), Run(schedule);
            e.own <= (4 * |s.records| + 31) * (1 + e.spurious + e.others)
  {
    RunPays(schedule, t);
    hide Run, Left;
  }

  /** All that others can do to disturb a call comes to operations done: the tail passes each node once. */
  lemma ProgressIsWork(schedule: seq<Turn>)
    ensures var s := Run(schedule);
            Progress(s) <= 1 + 2 * (|s.g.log| - 1) + s.g.hi + |s.records|
  {
    RunKeepsInv(schedule);
    assert EndsOk(Run(schedule));
  }
}
