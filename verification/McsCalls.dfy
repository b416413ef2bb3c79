/** What a caller of the MCS lock gets: acquire waits for the lock, and tryacq never waits. */
module McsCalls {
  import opened Cells
  import opened Mcs

  /** The call a thread is in or made last, whether the thread has entered since, and how many instructions
      it has executed other than spin retries. */
  datatype Call = Call(try: bool, entered: bool, steps: nat)

  function LastCall(schedule: seq<Turn>, t: Thread): Option<Call> {
    if schedule == [] then None
    else
      var before, u := schedule[..|schedule| - 1], schedule[|schedule| - 1];
      var k := LastCall(before, t);
      if u.t != t then k
      else if Pc(Run(before), t).Idle? then Some(Call(u.try, false, 0))
      else if k.None? then None
      else Some(CallOn(k.value, Run(before), Run(schedule), t))
  }

  /** One more instruction of `t`, from `s` to `s'`. */
  function CallOn(k: Call, s: State, s': State, t: Thread): Call {
    Call(k.try, k.entered || Pc(s', t).Critical?, if s' == s then k.steps else k.steps + 1)
  }

  /** How many instructions a thread has at most ahead of it, up to the end of its release. */
  function Rank(pc: PC): nat {
    match pc
    case Idle => 0
    case ClearNext(_) => 12
    case SwapLock => 11
    case TryCas => 11
    case SetLocked(_) => 10
    case LinkPred(_) => 9
    case SpinStatus => 8
    case Critical => 7
    case ReadNext => 6
    case ReleaseCas => 5
    case SpinNext => 4
    case FetchNext => 3
    case Handoff(_) => 2
  }

  /** Where a thread is in its call. */
  predicate CallAt(pc: PC, k: Call) {
    && k.steps + Rank(pc) <= 12
    && (match pc
        case Idle => k.try || k.entered
        case ClearNext(b) => b == k.try && !k.entered
        case TryCas => k.try && !k.entered
        case _ => if Holding(pc) then k.entered else !k.try && !k.entered)
  }

  lemma OwnCall(s: State, t: Thread, try: bool, k: Call)
    requires !Pc(s, t).Idle? && CallAt(Pc(s, t), k)
    ensures CallAt(Pc(Step(s, t, try), t), CallOn(k, s, Step(s, t, try), t))
  {
    match Pc(s, t)
    case SwapLock => return;
    case SpinStatus => return;
    case TryCas => return;
    case ReleaseCas => return;
    case SpinNext => return;
    case FetchNext => return;
    case _ => return;
  }

  lemma OthersStay(s: State, x: Thread, try: bool, t: Thread)
    requires x != t
    ensures Pc(Step(s, x, try), t) == Pc(s, t)
  {
    match Pc(s, x)
    case SwapLock => return;
    case TryCas => return;
    case ReleaseCas => return;
    case _ => return;
  }

  ghost predicate CallKnown(schedule: seq<Turn>, t: Thread) {
    match LastCall(schedule, t)
    case None => Pc(Run(schedule), t).Idle?
    case Some(k) => CallAt(Pc(Run(schedule), t), k)
  }

  lemma {:induction false} RunKeepsCall(schedule: seq<Turn>, t: Thread)
    ensures CallKnown(schedule, t)
  {
    if schedule != [] {
      var before, u := schedule[..|schedule| - 1], schedule[|schedule| - 1];
      var s := Run(before);
      RunKeepsCall(before, t);
      assert Pc(s, u.t).Idle? ==> Pc(Step(s, u.t, u.try), u.t) == ClearNext(u.try);
      hide Step;
      if u.t != t {
        OthersStay(s, u.t, u.try, t);
      } else if !Pc(s, t).Idle? {
        hide CallAt;
        OwnCall(s, t, u.try, LastCall(before, t).value);
      }
    }
  }

  /** From its call to the end of its release a thread executes at most 12 instructions besides spin retries. */
  lemma BoundedWork(schedule: seq<Turn>, t: Thread)
    requires LastCall(schedule, t).Some?
    ensures LastCall(schedule, t).value.steps <= 12
  {
    RunKeepsCall(schedule, t);
  }

  /** An acquire is over only after its thread has been in the critical section. */
  lemma AcquireEnters(schedule: seq<Turn>, t: Thread)
    requires Pc(Run(schedule), t).Idle? && LastCall(schedule, t).Some? && !LastCall(schedule, t).value.try
    ensures LastCall(schedule, t).value.entered
  {
    RunKeepsCall(schedule, t);
  }

  /** A call ends without an entry only if it is a tryacq and the lock word is taken at that moment. */
  lemma TryFailsOnlyIfTaken(schedule: seq<Turn>, t: Thread, try: bool)
    requires !Pc(Run(schedule), t).Idle? && Pc(Step(Run(schedule), t, try), t).Idle?
    ensures LastCall(schedule, t).Some?
    ensures var k := LastCall(schedule, t).value; !k.entered ==> k.try && Run(schedule).lock.Some?
  {
    RunKeepsCall(schedule, t);
    hide Run;
  }

  /** A tryacq never stands in line behind another thread. */
  lemma TryNeverWaits(schedule: seq<Turn>, t: Thread, i: nat)
    requires LastCall(schedule, t).Some? && LastCall(schedule, t).value.try && 0 < i < |Run(schedule).queue|
    ensures Run(schedule).queue[i] != t
  {
    RunKeepsCall(schedule, t);
    RunKeepsInv(schedule);
    var s := Run(schedule);
    assert WaitsBehind(s, s.queue[i - 1], s.queue[i]);
    hide Run, Inv;
  }
}
