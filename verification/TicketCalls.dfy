/**
 What a caller of the ticket lock gets: acquire draws one ticket and comes back only with the lock, and
 tryacq comes back at once, without the lock only if a ticket was out or was drawn since it looked.
 */
module TicketCalls {
  import opened Cells
  import opened Ticket

  /** The call a thread is in or made last, whether the thread has entered since, how many instructions it has
      executed other than spin retries, and how many tickets had been drawn before the first of them. */
  datatype Call = Call(try: bool, entered: bool, steps: nat, seen: nat)

  function LastCall(schedule: seq<Turn>, t: Thread): Option<Call> {
    if schedule == [] then None
    else
      var before, u := schedule[..|schedule| - 1], schedule[|schedule| - 1];
      var k := LastCall(before, t);
      if u.t != t then k
      else if Pc(Run(before), t).Idle? then Some(Call(u.try, false, 0, 0))
      else if k.None? then None
      else Some(CallOn(k.value, Run(before), Run(schedule), t))
  }

  /** One more instruction of `t`, from `s` to `s'`. */
  function CallOn(k: Call, s: State, s': State, t: Thread): Call {
    Call(k.try, k.entered || Pc(s', t).Critical?, if s' == s then k.steps else k.steps + 1,
         if k.steps == 0 then |s.taker| else k.seen)
  }

  /** How many instructions a thread has at most ahead of it, up to the end of its release. */
  function Rank(pc: PC): nat {
    match pc
    case Idle => 0
    case TryLoad => 5
    case TryCompare(_) => 4
    case Draw => 4
    case Spin(_) => 3
    case TryCas(_) => 3
    case Critical => 2
    case Release => 1
  }

  predicate Trying(pc: PC) { pc.TryLoad? || pc.TryCompare? || pc.TryCas? }
  predicate Holding(pc: PC) { pc.Critical? || pc.Release? }

  /** Where a thread is in its call. */
  predicate CallAt(s: State, t: Thread, k: Call) {
    var pc := Pc(s, t);
    && k.steps + Rank(pc) <= 5 && k.seen <= |s.taker|
    && (pc.Idle? ==> k.try || k.entered)
    && (!pc.Idle? ==> (k.entered <==> Holding(pc)) && (Holding(pc) || (k.try <==> Trying(pc))))
    && (pc.Draw? || pc.TryLoad? <==> k.steps == 0)
    && (pc.TryCompare? || pc.TryCas? || pc.Spin? ==> Mine(s, t) == k.seen)
    && (!k.try && k.steps > 0 ==> k.seen < |s.taker| && s.taker[k.seen] == t)
  }

  lemma OwnCall(s: State, u: Turn, k: Call)
    requires !Pc(s, u.t).Idle? && CallAt(s, u.t, k)
    ensures CallAt(Step(s, u), u.t, CallOn(k, s, Step(s, u), u.t))
  {
    match Pc(s, u.t)
    case Draw => return;
    case Spin(_) => return;
    case TryLoad => return;
    case TryCas(_) => return;
    case _ => return;
  }

  lemma OthersCall(s: State, u: Turn, t: Thread, k: Call)
    requires u.t != t && CallAt(s, t, k)
    ensures CallAt(Step(s, u), t, k)
  {
    Unmoved(s, u, t);
    hide Step;
  }

  lemma Unmoved(s: State, u: Turn, t: Thread)
    requires u.t != t
    ensures var s' := Step(s, u);
            Pc(s', t) == Pc(s, t) && Mine(s', t) == Mine(s, t) && |s.taker| <= |s'.taker|
            && s'.taker[..|s.taker|] == s.taker
  {
    match Pc(s, u.t)
    case Draw => return;
    case TryCas(_) => return;
    case _ => return;
  }

  lemma CallStarts(s: State, u: Turn)
    requires Pc(s, u.t).Idle?
    ensures CallAt(Step(s, u), u.t, Call(u.try, false, 0, 0))
  {
  }

  ghost predicate CallKnown(schedule: seq<Turn>, t: Thread) {
    match LastCall(schedule, t)
    case None => Pc(Run(schedule), t).Idle?
    case Some(k) => CallAt(Run(schedule), t, k)
  }

  lemma {:induction false} RunKeepsCall(schedule: seq<Turn>, t: Thread)
    ensures CallKnown(schedule, t)
  {
    if schedule != [] {
      var before, u := schedule[..|schedule| - 1], schedule[|schedule| - 1];
      var s := Run(before);
      RunKeepsCall(before, t);
      hide Step, CallAt;
      if u.t != t {
        Unmoved(s, u, t);
        if LastCall(before, t).Some? { OthersCall(s, u, t, LastCall(before, t).value); }
      } else if Pc(s, t).Idle? {
        CallStarts(s, u);
      } else {
        OwnCall(s, u, LastCall(before, t).value);
      }
    }
  }

  /** Whatever the counters do: an acquire draws a ticket of its own with its first instruction and is over only
      after its thread has been in the critical section; besides spin retries a call and its release take at
      most five instructions. */
  lemma AcquireEnters(schedule: seq<Turn>, t: Thread)
    requires LastCall(schedule, t).Some?
    ensures var k, s := LastCall(schedule, t).value, Run(schedule);
            && k.steps <= 5
            && (!k.try && Pc(s, t).Idle? ==> k.entered)
            && (!k.try && k.steps > 0 ==> k.seen < |s.taker| && s.taker[k.seen] == t)
  {
    RunKeepsCall(schedule, t);
    hide Run;
  }

  /** While every step fits, a call ends without an entry only if it is a tryacq and, at that moment, a ticket
      is out or one has been drawn since it looked. */
  lemma TryFailsOnlyIfTaken(schedule: seq<Turn>, t: Thread, try: bool)
    requires AllFit(schedule)
    requires !Pc(Run(schedule), t).Idle? && Pc(Step(Run(schedule), Turn(t, try)), t).Idle?
    ensures LastCall(schedule, t).Some?
    ensures var k, s := LastCall(schedule, t).value, Run(schedule);
            !k.entered ==> k.try && (Outstanding(s) > 0 || k.seen < |s.taker|)
  {
    RunKeepsInv(schedule);
    RunKeepsCall(schedule, t);
    hide Run;
    var s := Run(schedule);
    assert ThreadOk(s, t);
    hide Inv;
  }

  /** While every step fits and a ticket is out, the thread with the oldest one is in its call and never spins
      in vain. */
  lemma OldestMoves(schedule: seq<Turn>, try: bool)
    requires AllFit(schedule) && Outstanding(Run(schedule)) > 0
    ensures var s := Run(schedule);
            && s.served < |s.taker| && HasTicket(Pc(s, s.taker[s.served]))
            && Pc(Step(s, Turn(s.taker[s.served], try)), s.taker[s.served]) != Pc(s, s.taker[s.served])
  {
    RunKeepsInv(schedule);
    hide Run;
    var s := Run(schedule);
    assert TicketOk(s, s.served);
    if Pc(s, s.taker[s.served]).Spin? { SpinTest(s, s.taker[s.served]); }
    hide Inv;
  }
}
