/**
 What a caller of the fetch-and-add queue gets: an enqueue draws one ticket for its argument and leaves
 it in the ticket's cell, and a dequeue comes back empty-handed exactly if, at its last look, the oldest
 undelivered ticket had no data.
 */
module FaCalls {
  import opened Cells
  import opened FaQueue

  // ---------------------------------------------------------------- producers

  /** The enqueue a producer is in or made last: its argument, the tickets the producer has drawn since, and how
      many instructions it has executed. */
  datatype Enqueuing = Enqueuing(arg: Value, tickets: seq<nat>, steps: nat)

  function LastEnqueue(schedule: seq<Turn>, t: Thread): Option<Enqueuing> {
    if schedule == [] then None
    else
      var before, u := schedule[..|schedule| - 1], schedule[|schedule| - 1];
      var k := LastEnqueue(before, t);
      if !(u.Produce? && u.t == t) then k
      else if Pc(Run(before), t).Idle? then Some(Enqueuing(u.v, [], 0))
      else if k.None? then None
      else Some(EnqueuingOn(k.value, Run(before), Run(schedule)))
  }

  /** One more instruction of the enqueue, from `s` to `s'`. */
  function EnqueuingOn(k: Enqueuing, s: State, s': State): Enqueuing {
    Enqueuing(k.arg, k.tickets + if |s.g.taker| < |s'.g.taker| then [|s.g.taker|] else [], k.steps + 1)
  }

  /** How many segments the walk still has to pass. */
  function Ahead(j: Job): int { SegOf(j.ticket) - j.i }

  /** How many instructions a producer with a ticket has at most ahead of it: at most five for a segment. */
  function Rank(pc: Producer): int {
    match pc
    case LoadSeg(_, k) => 5 * SegOf(k) + 3
    case Walk(j) => 5 * Ahead(j) + 2
    case LoadNext(j) => 5 * Ahead(j) + 1
    case AllocSeg(j) => 5 * Ahead(j)
    case CasNext(j, _) => 5 * Ahead(j) - 1
    case Reload(j) => 5 * Ahead(j) - 2
    case Write(_) => 1
    case _ => 0
  }

  /** The enqueue has drawn ticket `n`, for its argument. */
  predicate DrewFor(s: State, t: Thread, k: Enqueuing, n: nat) {
    && k.tickets == [n] && n < |s.g.put| && s.g.put[n] == k.arg && n < |s.g.taker| && s.g.taker[n] == t
  }

  /** Where a producer is in its enqueue. */
  predicate EnqueueAt(s: State, t: Thread, k: Enqueuing) {
    match Pc(s, t)
    case TakeTicket(x) => x == k.arg && k.tickets == [] && k.steps == 0
    case Idle => |k.tickets| == 1 && DrewFor(s, t, k, k.tickets[0]) && k.steps <= 5 * SegOf(k.tickets[0]) + 4
    case pc => DrewFor(s, t, k, JobOf(pc).ticket) && k.steps + Rank(pc) <= 5 * SegOf(JobOf(pc).ticket) + 4
  }

  lemma Draws(s: State, t: Thread, v: Value, k: Enqueuing)
    requires EndsOk(s) && Pc(s, t).TakeTicket? && EnqueueAt(s, t, k)
    ensures EnqueueAt(ProducerStep(s, t, v), t, EnqueuingOn(k, s, ProducerStep(s, t, v)))
  {
    hide SegOf, SlotOf;
  }

  /** An instruction with a ticket brings the enqueue nearer to its end. */
  lemma RankDrops(s: State, t: Thread, v: Value)
    requires Inv(s) && !Pc(s, t).Idle? && !Pc(s, t).TakeTicket?
    ensures var pc, pc' := Pc(s, t), Pc(ProducerStep(s, t, v), t);
            && Rank(pc') < Rank(pc) && !pc'.TakeTicket?
            && (pc'.Idle? || JobOf(pc').ticket == JobOf(pc).ticket)
  {
    assert ProducerOk(s, t);
    ProducerKeepsSelf(s, t, v);
    assert !Pc(ProducerStep(s, t, v), t).Abort?;
    if Pc(s, t).Walk? || Pc(s, t).AllocSeg? {
      assert 0 <= Ahead(Pc(s, t).j);
      hide Inv, SegOf, SlotOf, JobOk, ProducerOk;
      return;
    }
    hide Inv, SegOf, SlotOf, JobOk, ProducerOk;
    match Pc(s, t)
    case LoadSeg(_, _) => return;
    case LoadNext(_) => return;
    case CasNext(_, _) => return;
    case Reload(_) => return;
    case _ => return;
  }

  lemma OwnEnqueue(s: State, t: Thread, v: Value, k: Enqueuing)
    requires Inv(s) && !Pc(s, t).Idle? && EnqueueAt(s, t, k)
    ensures EnqueueAt(ProducerStep(s, t, v), t, EnqueuingOn(k, s, ProducerStep(s, t, v)))
  {
    if Pc(s, t).TakeTicket? { Draws(s, t, v, k); return; }
    RankDrops(s, t, v);
    ProducerKeepsEntries(s, t, v);
    hide Inv, ProducerStep, SegOf, Rank, JobOf;
  }

  lemma OthersEnqueue(s: State, u: Turn, t: Thread, k: Enqueuing)
    requires Inv(s) && !(u.Produce? && u.t == t) && EnqueueAt(s, t, k)
    ensures EnqueueAt(Step(s, u), t, k)
  {
    OthersStay(s, u, t);
    hide SegOf, Rank, JobOf;
    match u
    case Produce(x, v) => ProducerGrows(s, x, v, 0); hide Inv, ProducerStep; return;
    case Consume => hide Inv; return;
  }

  lemma OthersStay(s: State, u: Turn, t: Thread)
    requires !(u.Produce? && u.t == t)
    ensures Pc(Step(s, u), t) == Pc(s, t)
  {
    if u.Produce? { OtherProducers(s, u.t, u.v, t); }
    hide ProducerStep;
  }

  ghost predicate EnqueueKnown(schedule: seq<Turn>, t: Thread) {
    match LastEnqueue(schedule, t)
    case None => Pc(Run(schedule), t).Idle?
    case Some(k) => EnqueueAt(Run(schedule), t, k)
  }

  lemma {:induction false} RunKeepsEnqueue(schedule: seq<Turn>, t: Thread)
    ensures EnqueueKnown(schedule, t)
  {
    if schedule != [] {
      var before, u := schedule[..|schedule| - 1], schedule[|schedule| - 1];
      var s := Run(before);
      RunKeepsEnqueue(before, t);
      RunKeepsInv(before);
      assert u.Produce? && Pc(s, u.t).Idle? ==> EnqueueAt(Step(s, u), u.t, Enqueuing(u.v, [], 0));
      hide Inv, ProducerStep, ConsumerStep, EnqueueAt;
      if !(u.Produce? && u.t == t) {
        OthersStay(s, u, t);
        if LastEnqueue(before, t).Some? { OthersEnqueue(s, u, t, LastEnqueue(before, t).value); }
      } else if !Pc(s, t).Idle? {
        OwnEnqueue(s, t, u.v, LastEnqueue(before, t).value);
      }
    }
  }

  /** An enqueue that is over has drawn one ticket, for its argument, and left the argument in the ticket's cell. */
  lemma EnqueueStoresItsArgument(schedule: seq<Turn>, t: Thread)
    requires Pc(Run(schedule), t).Idle? && LastEnqueue(schedule, t).Some?
    ensures var s, k := Run(schedule), LastEnqueue(schedule, t).value;
            && |k.tickets| == 1 && DrewFor(s, t, k, k.tickets[0]) && CellOf(s, k.tickets[0]) == k.arg
  {
    RunKeepsEnqueue(schedule, t);
    RunKeepsInv(schedule);
    assert EndsOk(Run(schedule)) && TicketOk(Run(schedule), LastEnqueue(schedule, t).value.tickets[0]);
    hide Run, Inv;
  }

  /** However the others are scheduled, an enqueue never takes more than five instructions for each segment up to
      its ticket's, and four besides. */
  lemma EnqueueIsWaitFree(schedule: seq<Turn>, t: Thread)
    requires LastEnqueue(schedule, t).Some?
    ensures var k := LastEnqueue(schedule, t).value;
            if k.tickets == [] then k.steps == 0 else k.steps <= 5 * SegOf(k.tickets[0]) + 4
  {
    RunKeepsEnqueue(schedule, t);
    RunKeepsInv(schedule);
    assert ProducerOk(Run(schedule), t);
    hide Run, Inv, SegOf;
  }

  // ---------------------------------------------------------------- the consumer

  /** A call of dequeue: how many instructions it has executed, whether at the last of them the oldest
      undelivered ticket had no data, and the values it has delivered. */
  datatype Consuming = Consuming(steps: nat, without: bool, got: seq<Value>)

  /** The oldest undelivered ticket is not there, not written, or written with ALPHA. */
  predicate NoData(s: State) { !Complete(s, |s.g.got|) || s.g.put[|s.g.got|] == ALPHA }

  function LastCall(schedule: seq<Turn>): Option<Consuming> {
    if schedule == [] then None
    else
      var before, u := schedule[..|schedule| - 1], schedule[|schedule| - 1];
      var s, k := Run(before), LastCall(before);
      if u.Produce? then k
      else if s.c.Rest? then Some(Consuming(0, false, []))
      else if k.None? then None
      else Some(ConsumingOn(k.value, s, Run(schedule)))
  }

  function ConsumingOn(k: Consuming, s: State, s': State): Consuming {
    Consuming(k.steps + 1, NoData(s), k.got + if |s.g.got| < |s'.g.got| then s'.g.got[|s.g.got|..] else [])
  }

  predicate GotOk(c: Consumer, k: Consuming) {
    match c
    case Rest => k.steps <= 4 && |k.got| == if k.without then 0 else 1
    case LoadNextSeg => k.steps == 0 && k.got == []
    case Advance(_) => k.steps == 1 && k.got == []
    case ReadCell => k.steps <= 2 && k.got == []
    case ReadData => k.steps <= 3 && k.got == []
    case Stopped => false
  }

  /** While the consumer is about to deliver, there is data. */
  lemma DataStays(schedule: seq<Turn>)
    requires Run(schedule).c.ReadData?
    ensures !NoData(Run(schedule))
  {
    var s := Run(schedule);
    RunKeepsInv(schedule);
    hide Run;
    assert EndsOk(s) && ConsumerOk(s) && TicketOk(s, s.q.head);
    hide Inv, SegOf, SlotOf, CellOf;
  }

  lemma ConsumerGets(schedule: seq<Turn>, k: Consuming)
    requires !Run(schedule).c.Rest? && GotOk(Run(schedule).c, k)
    ensures GotOk(ConsumerStep(Run(schedule)).c, ConsumingOn(k, Run(schedule), ConsumerStep(Run(schedule))))
  {
    var s := Run(schedule);
    RunKeepsInv(schedule);
    if s.c.LoadNextSeg? && ConsumerStep(s).c.Rest? { MissingSegmentMeansEmpty(schedule); }
    if s.c.ReadCell? { DequeueFindsComplete(schedule); }
    if s.c.ReadData? { DataStays(schedule); }
    ConsumerKeepsInv(s);
    assert EndsOk(s) && ConsumerOk(s) && ConsumerOk(ConsumerStep(s));
    hide Run, Inv, SegOf, SlotOf, NoData;
    match s.c
    case LoadNextSeg => return;
    case Advance(_) => return;
    case ReadCell => return;
    case ReadData => return;
  }

  ghost predicate GotKnown(schedule: seq<Turn>) {
    match LastCall(schedule)
    case None => Run(schedule).c.Rest?
    case Some(k) => GotOk(Run(schedule).c, k)
  }

  lemma ProducersStay(s: State, t: Thread, v: Value)
    ensures ProducerStep(s, t, v).c == s.c
  {
    ConsumerWordsStay(s, t, v);
  }

  lemma {:induction false} RunKeepsGot(schedule: seq<Turn>)
    ensures GotKnown(schedule)
  {
    if schedule != [] {
      var before, u := schedule[..|schedule| - 1], schedule[|schedule| - 1];
      var s := Run(before);
      RunKeepsGot(before);
      hide ProducerStep, ConsumingOn;
      match u
      case Produce(t, v) => ProducersStay(s, t, v);
      case Consume => if !s.c.Rest? { hide ConsumerStep, GotOk; ConsumerGets(before, LastCall(before).value); }
    }
  }

  /** A dequeue that is over has delivered one value, or nothing; nothing exactly if at its last instruction
      the oldest undelivered ticket had no data.  It never takes more than four instructions. */
  lemma DequeueDelivers(schedule: seq<Turn>)
    requires LastCall(schedule).Some?
    ensures var k := LastCall(schedule).value;
            && k.steps < (if Run(schedule).c.Rest? then 5 else 4)
            && (Run(schedule).c.Rest? ==> |k.got| == if k.without then 0 else 1)
  {
    RunKeepsGot(schedule);
  }
}
