/**
 What a caller of the Michael-Scott queue gets: each call performs exactly its own operation on the
 atomic queue, once, with the argument it was given; and a thread that runs alone finishes its call.
 */
module MsCalls {
  import opened Cells
  import opened MsQueue
  import opened ScanSpec

  /** The call a thread is in or made last. */
  function LastCall(schedule: seq<Turn>, t: Thread): Option<Op> {
    if schedule == [] then None
    else
      var before, u := schedule[..|schedule| - 1], schedule[|schedule| - 1];
      if u.t == t && Pc(Run(before), t).Idle? then Some(u.op) else LastCall(before, t)
  }

  /** What a thread has done to the atomic queue since its last call began. */
  function CallEvents(schedule: seq<Turn>, t: Thread): seq<Event> {
    if schedule == [] then []
    else
      var before, u := schedule[..|schedule| - 1], schedule[|schedule| - 1];
      var s := Run(before);
      if u.t != t then CallEvents(before, t)
      else if Pc(s, t).Idle? then []
      else if EventOf(s, u).Silent? then CallEvents(before, t)
      else CallEvents(before, t) + [EventOf(s, u)]
  }

  /** A finished call: an enqueue has linked its argument once; a dequeue has removed a value and returned
      it, or has seen the queue empty and returned nothing. */
  predicate Finished(op: Op, es: seq<Event>, t: Thread) {
    match op
    case Enqueue(v) => es == [Offer(t, v), Link(t, v)]
    case Dequeue =>
      || es == [SawEmpty(t), Return(t, None)]
      || (|es| == 2 && es[0].Take? && es == [Take(t, es[0].v), Return(t, Some(es[0].v))])
  }

  /** What a thread has done so far, by where it is in its call. */
  predicate CallOk(s: State, t: Thread, op: Op, es: seq<Event>) {
    match Pc(s, t)
    case Idle => Finished(op, es, t)
    case Reg(o, _) => o == op && es == []
    case Alloc(v) => op == Op.Enqueue(v) && es == []
    case Enq(_, eop) =>
      && op.Enqueue?
      && (if eop.Swing? then es == [Offer(t, op.v), Link(t, op.v)]
          else es == [Offer(t, op.v)] && Offered(s, t) == Some(op.v))
    case Deq(_) =>
      && op.Dequeue?
      && (match Result(s, t)
          case None => es == []
          case Some(None) => es == [SawEmpty(t)]
          case Some(Some(v)) => es == [Take(t, v)])
    case Retire(_) => op.Dequeue? && Finished(op, es, t)
  }

  ghost predicate CallKnown(schedule: seq<Turn>, t: Thread) {
    match LastCall(schedule, t)
    case None => Pc(Run(schedule), t).Idle?
    case Some(op) => CallOk(Run(schedule), t, op, CallEvents(schedule, t))
  }

  /** The events after an instruction with event `e`. */
  function With(es: seq<Event>, e: Event): seq<Event> { if e.Silent? then es else es + [e] }

  lemma EnqKeepsCall(s: State, u: Turn, op: Op, es: seq<Event>)
    requires Inv(s) && CallOk(s, u.t, op, es) && Pc(s, u.t).Enq?
    ensures CallOk(Step(s, u), u.t, op, With(es, EventOf(s, u)))
  {
    assert ThreadOk(s, u.t);
    OwnObserve(s, u);
    hide Inv, DeqStep, RetireStep, RegStep, Offered, Result, ThreadOk;
    match Pc(s, u.t).eop
    case CasNext(_) => return;
    case Swing(_) => return;
    case _ => return;
  }

  lemma DeqKeepsCall(s: State, u: Turn, op: Op, es: seq<Event>)
    requires Inv(s) && CallOk(s, u.t, op, es) && Pc(s, u.t).Deq?
    ensures CallOk(Step(s, u), u.t, op, With(es, EventOf(s, u)))
  {
    OwnObserve(s, u);
    hide Inv, EnqStep, RetireStep, RegStep, ThreadOk;
    match Pc(s, u.t).dop
    case LoadNextD(_, _) => return;
    case PublishNext(_, _, _) => return;
    case CasHead(_, _) => return;
    case Read(_, _) => return;
    case _ => return;
  }

  lemma RestKeepsCall(s: State, u: Turn, op: Op, es: seq<Event>)
    requires Inv(s) && CallOk(s, u.t, op, es) && (Pc(s, u.t).Reg? || Pc(s, u.t).Alloc? || Pc(s, u.t).Retire?)
    ensures CallOk(Step(s, u), u.t, op, With(es, EventOf(s, u)))
  {
    OwnObserve(s, u);
    hide Inv, EnqStep, DeqStep, ThreadOk;
    match Pc(s, u.t)
    case Alloc(_) => return;
    case Reg(_, _) => return;
    case Retire(_) => return;
  }

  lemma OthersKeepCall(s: State, u: Turn, t: Thread, op: Op, es: seq<Event>)
    requires Inv(s) && CallOk(s, t, op, es) && u.t != t
    ensures CallOk(Step(s, u), t, op, es)
  {
    OthersObserve(s, u, t);
    OthersUntouched(s, u, t);
    hide Inv, Step, Offered, Result;
  }

  lemma {:induction false} RunKeepsCall(schedule: seq<Turn>, t: Thread)
    ensures CallKnown(schedule, t)
  {
    if schedule != [] {
      var before, u := schedule[..|schedule| - 1], schedule[|schedule| - 1];
      var s := Run(before);
      RunKeepsCall(before, t);
      RunKeepsInv(before);
      assert Pc(s, u.t).Idle? ==> Pc(Step(s, u), u.t) == Reg(u.op, Get);
      hide Inv, Step, EventOf;
      if u.t != t {
        if LastCall(before, t).Some? { OthersKeepCall(s, u, t, LastCall(before, t).value, CallEvents(before, t)); }
        OthersUntouched(s, u, t);
      } else if !Pc(s, t).Idle? {
        var op, es := LastCall(before, t).value, CallEvents(before, t);
        hide CallOk;
        match Pc(s, t)
        case Enq(_, _) => EnqKeepsCall(s, u, op, es);
        case Deq(_) => DeqKeepsCall(s, u, op, es);
        case _ => RestKeepsCall(s, u, op, es);
      }
    }
  }

  /** Whenever a thread is between calls, its last call has done exactly what it was called for. */
  lemma CallsDoTheirWork(schedule: seq<Turn>, t: Thread)
    requires Pc(Run(schedule), t).Idle? && LastCall(schedule, t).Some?
    ensures Finished(LastCall(schedule, t).value, CallEvents(schedule, t), t)
  {
    RunKeepsCall(schedule, t);
  }

  /** The arguments of a thread's enqueues, in the order of the calls. */
  function Arguments(schedule: seq<Turn>, t: Thread): seq<Value> {
    if schedule == [] then []
    else
      var before, u := schedule[..|schedule| - 1], schedule[|schedule| - 1];
      Arguments(before, t) + if u.t == t && Pc(Run(before), t).Idle? && u.op.Enqueue? then [u.op.v] else []
  }

  /** The values a thread has offered to the atomic queue, in the order of the run. */
  function Offers(es: seq<Event>, t: Thread): seq<Value> {
    if es == [] then []
    else
      var e := es[|es| - 1];
      Offers(es[..|es| - 1], t) + if e.Offer? && e.t == t then [e.v] else []
  }

  /** The argument of a call that has not come to offering it. */
  function NotOffered(pc: PC): seq<Value> {
    match pc
    case Reg(op, _) => if op.Enqueue? then [op.v] else []
    case Alloc(v) => [v]
    case _ => []
  }

  lemma StepOffers(s: State, u: Turn)
    requires !Pc(s, u.t).Idle?
    ensures NotOffered(Pc(s, u.t)) ==
            (if EventOf(s, u).Offer? then [EventOf(s, u).v] else []) + NotOffered(Pc(Step(s, u), u.t))
  {
    hide Kept;
    match Pc(s, u.t)
    case Enq(_, _) => hide DeqStep, RetireStep, RegStep; return;
    case Deq(_) => hide EnqStep, RetireStep, RegStep; return;
    case Retire(_) => hide EnqStep, DeqStep, RegStep; return;
    case _ => hide EnqStep, DeqStep, RetireStep; return;
  }

  lemma OffersOn(es: seq<Event>, e: Event, t: Thread)
    ensures Offers(es + [e], t) == Offers(es, t) + if e.Offer? && e.t == t then [e.v] else []
  {
    assert (es + [e])[..|es|] == es;
  }

  lemma CallStarts(s: State, u: Turn)
    requires Pc(s, u.t).Idle?
    ensures Pc(Step(s, u), u.t) == Reg(u.op, Get) && EventOf(s, u).Silent?
  {
  }

  lemma EventIsOwn(s: State, u: Turn)
    ensures EventOf(s, u).Offer? ==> EventOf(s, u).t == u.t
  {
  }

  /** What a thread offers are the arguments of its enqueues, in order, but for one still registering. */
  lemma {:induction false} OffersAreArguments(schedule: seq<Turn>, t: Thread)
    ensures Arguments(schedule, t) == Offers(Trace(schedule), t) + NotOffered(Pc(Run(schedule), t))
  {
    hide Step, EventOf, NotOffered, Offers;
    if schedule == [] {
      NoOffers(t);
    } else {
      var before, u := schedule[..|schedule| - 1], schedule[|schedule| - 1];
      var s := Run(before);
      OffersAreArguments(before, t);
      OffersOn(Trace(before), EventOf(s, u), t);
      EventIsOwn(s, u);
      if u.t != t {
        OthersUntouched(s, u, t);
      } else if Pc(s, t).Idle? {
        CallStarts(s, u);
        NotOfferedYet(u.op);
      } else {
        StepOffers(s, u);
      }
    }
  }

  lemma NoOffers(t: Thread)
    ensures Offers(Trace([]), t) == [] && NotOffered(Pc(Run([]), t)) == []
  {
  }

  lemma NotOfferedYet(op: Op)
    ensures NotOffered(Idle) == [] && NotOffered(Reg(op, Get)) == if op.Enqueue? then [op.v] else []
  {
  }

  // ---------------------------------------------------------------- a thread that runs alone finishes

  /** How many instructions are left of an enqueue that starts its loop again: five more if the tail lags. */
  function LoopLeft(s: State): nat { 4 + if Next(s, s.q.tail).None? then 2 else 7 }

  function EnqLeft(s: State, op: EnqOp): nat {
    match op
    case LoadTail => LoopLeft(s)
    case Publish(tl) => 2 + if s.q.tail == tl then LoadNextLeft(s, tl) else LoopLeft(s)
    case Validate(tl) => 1 + if s.q.tail == tl then LoadNextLeft(s, tl) else LoopLeft(s)
    case LoadNext(tl) => LoadNextLeft(s, tl)
    case CasNext(tl) => if Next(s, tl).None? then 2 else 1 + LoopLeft(s)
    case Help(tl, _) => HelpLeft(s, tl)
    case Swing(_) => 1
  }

  function HelpLeft(s: State, tl: Node): nat { if s.q.tail == tl then 7 else 1 + LoopLeft(s) }
  function LoadNextLeft(s: State, tl: Node): nat { 1 + if Next(s, tl).None? then 2 else HelpLeft(s, tl) }

  /** A retire with a scan of so many records. */
  function RetireMax(records: nat): nat { 2 * records + 5 }

  function RetireLeft(s: State, op: RetireOp): nat {
    match op
    case Push(_) => RetireMax(|s.records|)
    case Check => RetireMax(|s.records|) - 1
    case LoadList => RetireMax(|s.records|) - 2
    case Scan0(todo, _) => 2 * |todo| + 2
    case Scan1(todo, _) => 2 * |todo| + if todo == [] then 2 else 1
    case Drop(_) => 1
  }

  /** How many instructions are left of a dequeue that starts its loop again, with `r` records to scan. */
  function DeqLoopLeft(s: State, r: nat): nat { 5 + NextLeft(s, s.q.head, s.q.tail, Next(s, s.q.head), r) }

  /** ... once it has read the link `nx` of `h`, having seen `h` and `tl`: not counting another turn. */
  function NextLeft(s: State, h: Node, tl: Node, nx: Option<Node>, r: nat): nat {
    if nx.None? then 1 else if h == tl then 10 + RetireMax(r) else 3 + RetireMax(r)
  }

  function DeqLeft(s: State, op: DeqOp, r: nat): nat {
    match op
    case LoadHead => DeqLoopLeft(s, r)
    case PublishHead(h) => if s.q.head == h then DeqLoopLeft(s, r) - 1 else 2 + DeqLoopLeft(s, r)
    case ValidateHead(h) => if s.q.head == h then DeqLoopLeft(s, r) - 2 else 1 + DeqLoopLeft(s, r)
    case LoadTailD(h) => if s.q.head == h then DeqLoopLeft(s, r) - 3 else 4 + DeqLoopLeft(s, r)
    case LoadNextD(h, tl) => 1 + PublishLeft(s, h, tl, Next(s, h), r)
    case PublishNext(h, tl, nx) => PublishLeft(s, h, tl, nx, r)
    case HelpD(tl, _) => HelpDLeft(s, tl, r)
    case CasHead(h, _) => CasHeadLeft(s, h, r)
    case Read(_, _) => 1 + RetireMax(r)
  }

  function PublishLeft(s: State, h: Node, tl: Node, nx: Option<Node>, r: nat): nat {
    if nx.None? then 1 else 1 + if h == tl then HelpDLeft(s, tl, r) else CasHeadLeft(s, h, r)
  }
  function HelpDLeft(s: State, tl: Node, r: nat): nat { 1 + if s.q.tail == tl then 8 + RetireMax(r)
      else DeqLoopLeft(s, r) }
  function CasHeadLeft(s: State, h: Node, r: nat): nat { if s.q.head == h then 2 + RetireMax(r)
      else 1 + DeqLoopLeft(s, r) }

  function BeginLeft(s: State, op: Op, r: nat): nat { if op.Enqueue? then 1 + LoopLeft(s) else DeqLoopLeft(s, r) }

  /** Registration: `b` instructions follow it. */
  function RegLeft(s: State, gop: RegOp, b: nat): nat {
    match gop
    case Get => 2 * |s.records| + 9 + b
    case LoadRecords => 2 * |s.records| + 8 + b
    case TestFlag(todo) => 2 * |todo| + 7 + b
    case NextRecord(todo) => 2 * |todo| + 6 + b
    case Count => 5 + b
    case LoadFirst => 4 + b
    case AddRecord(seen) => if First(s.records) == seen then 3 + b else 5 + b
    case Clear0 => 2 + b
    case Clear1 => 1 + b
  }

  /** How many instructions at most a thread that runs alone needs to finish its call. */
  function Left(s: State, t: Thread): nat {
    var r := |s.records| + if Th(s, t).mine then 0 else 1;
    match Pc(s, t)
    case Idle => 0
    case Reg(op, gop) => RegLeft(s, gop, BeginLeft(s, op, r))
    case Alloc(_) => 1 + LoopLeft(s)
    case Enq(_, op) => EnqLeft(s, op)
    case Deq(op) => DeqLeft(s, op, r)
    case Retire(op) => RetireLeft(s, op)
  }

  lemma LeftBounded(s: State, t: Thread)
    requires TodoOk(s, t)
    ensures Left(s, t) <= 4 * |s.records| + 31
  {
  }

  lemma TailLink(s: State)
    requires Inv(s)
    ensures Next(s, s.q.tail).Some? ==> Next(s, Next(s, s.q.tail).value).None?
    ensures Next(s, s.q.head).None? ==> s.q.head == s.q.tail
  {
    assert EndsOk(s) && LogAt(s, s.g.ti) && LogAt(s, s.g.hi) && NodeOk(s, s.q.tail) && NodeOk(s, s.q.head);
    if s.g.ti + 1 < |s.g.log| { assert LogAt(s, s.g.ti + 1) && NodeOk(s, s.g.log[s.g.ti + 1]); }
  }

  lemma EnqShortens(s: State, u: Turn)
    requires Inv(s) && Pc(s, u.t).Enq? && !u.spurious
    ensures Left(Step(s, u), u.t) < Left(s, u.t)
  {
    assert ThreadOk(s, u.t) && EndsOk(s);
    TailLink(s);
    hide Inv, DeqStep, RetireStep, RegStep, DeqLeft, RetireLeft, RegLeft, EndsOk;
    match Pc(s, u.t).eop
    case LoadTail => return;
    case Publish(_) => return;
    case Validate(_) => return;
    case LoadNext(_) => return;
    case CasNext(_) => return;
    case Help(_, _) => return;
    case Swing(_) => return;
  }

  /** Up to the validated head nothing but the thread's own slots changes. */
  lemma DeqStarts(s: State, u: Turn)
    requires Inv(s) && Pc(s, u.t).Deq?
    requires var op := Pc(s, u.t).dop; op.LoadHead? || op.PublishHead? || op.ValidateHead?
    ensures Left(Step(s, u), u.t) < Left(s, u.t)
  {
    assert ThreadOk(s, u.t);
    TailLink(s);
    hide Inv, EnqStep, RetireStep, RegStep, EnqLeft, RegLeft, RetireLeft, ThreadOk;
    match Pc(s, u.t).dop
    case LoadHead => return;
    case PublishHead(_) => return;
    case ValidateHead(_) => return;
  }

  lemma DeqReads(s: State, u: Turn)
    requires Inv(s) && Pc(s, u.t).Deq? && (Pc(s, u.t).dop.LoadTailD? || Pc(s, u.t).dop.LoadNextD?)
    ensures Left(Step(s, u), u.t) < Left(s, u.t)
  {
    TailLink(s);
    if Pc(s, u.t).dop.LoadTailD? { OldHead(s, u.t); }
    hide Inv, EnqStep, RetireStep, RegStep, EnqLeft, RegLeft, RetireLeft;
    match Pc(s, u.t).dop
    case LoadTailD(_) => return;
    case LoadNextD(_, _) => return;
  }

  lemma DeqBranches(s: State, u: Turn)
    requires Inv(s) && Pc(s, u.t).Deq? && Pc(s, u.t).dop.PublishNext?
    ensures Left(Step(s, u), u.t) < Left(s, u.t)
  {
    assert ThreadOk(s, u.t);
    hide Inv, EnqStep, RetireStep, RegStep, EnqLeft, RegLeft, RetireLeft, DeqLoopLeft;
  }

  /** A head that is out of date lies before the tail. */
  lemma OldHead(s: State, t: Thread)
    requires Inv(s) && Pc(s, t).Deq? && Pc(s, t).dop.LoadTailD?
    ensures var h := Pc(s, t).dop.head; s.q.head == h || (h != s.q.tail && Next(s, h).Some?)
  {
    var h := Pc(s, t).dop.head;
    assert ThreadOk(s, t) && EndsOk(s) && NodeOk(s, h) && LogAt(s, s.g.hi) && LogAt(s, s.g.ti);
    hide Inv;
  }

  lemma DeqActs(s: State, u: Turn)
    requires Inv(s) && Pc(s, u.t).Deq? && !u.spurious
    requires var op := Pc(s, u.t).dop; op.HelpD? || op.CasHead? || op.Read?
    ensures Left(Step(s, u), u.t) < Left(s, u.t)
  {
    assert ThreadOk(s, u.t) && EndsOk(s);
    TailLink(s);
    hide Inv, EnqStep, RetireStep, RegStep, EnqLeft, RegLeft, EndsOk;
    match Pc(s, u.t).dop
    case HelpD(_, _) => return;
    case CasHead(_, _) => return;
    case Read(_, _) => return;
  }

  lemma DeqShortens(s: State, u: Turn)
    requires Inv(s) && Pc(s, u.t).Deq? && !u.spurious
    ensures Left(Step(s, u), u.t) < Left(s, u.t)
  {
    hide Inv, Step, Left;
    var op := Pc(s, u.t).dop;
    if op.LoadHead? || op.PublishHead? || op.ValidateHead? {
      DeqStarts(s, u);
    } else if op.LoadTailD? || op.LoadNextD? {
      DeqReads(s, u);
    } else if op.PublishNext? {
      DeqBranches(s, u);
    } else {
      DeqActs(s, u);
    }
  }

  lemma RetireShortens(s: State, u: Turn)
    requires Pc(s, u.t).Retire?
    ensures Left(Step(s, u), u.t) < Left(s, u.t)
  {
    hide EnqStep, DeqStep, RegStep, EnqLeft, DeqLeft, RegLeft, Kept;
    match Pc(s, u.t).rop
    case Push(_) => return;
    case Scan0(_, _) => return;
    case Scan1(_, _) => return;
    case _ => return;
  }

  lemma WalkShortens(s: State, u: Turn)
    requires Pc(s, u.t).Reg?
    requires var gop := Pc(s, u.t).gop; gop.LoadRecords? || gop.TestFlag? || gop.NextRecord? || gop.Count?
    ensures Left(Step(s, u), u.t) < Left(s, u.t)
  {
    hide EnqStep, DeqStep, RetireStep, RetireLeft, EnqLeft, DeqLeft;
    match Pc(s, u.t).gop
    case LoadRecords => return;
    case TestFlag(_) => return;
    case NextRecord(_) => return;
    case Count => return;
  }

  lemma RegShortens(s: State, u: Turn)
    requires Inv(s) && Pc(s, u.t).Reg? && !u.spurious
    ensures Left(Step(s, u), u.t) < Left(s, u.t)
  {
    assert RecordOk(s, u.t);
    hide Inv, EnqStep, DeqStep, RetireStep, RetireLeft;
    match Pc(s, u.t).gop
    case Get => return;
    case LoadFirst => return;
    case AddRecord(_) => return;
    case Clear0 => return;
    case Clear1 => return;
    case _ => hide Step, Left; WalkShortens(s, u); return;
  }

  /** The new node is not the tail nor behind it. */
  lemma AllocShortens(s: State, u: Turn)
    requires Inv(s) && Pc(s, u.t).Alloc?
    ensures Left(Step(s, u), u.t) < Left(s, u.t)
  {
    assert EndsOk(s) && LogAt(s, s.g.ti) && NodeOk(s, s.q.tail);
    hide Inv, EnqStep, DeqStep, RetireStep, RegStep;
  }

  /** Every instruction of a thread, unless a weak CAS fails for no reason, brings its call nearer to its end. */
  lemma StepShortens(s: State, u: Turn)
    requires Inv(s) && !Pc(s, u.t).Idle? && !u.spurious
    ensures Left(Step(s, u), u.t) < Left(s, u.t)
  {
    hide Inv, Step, Left;
    match Pc(s, u.t)
    case Reg(_, _) => RegShortens(s, u);
    case Alloc(_) => AllocShortens(s, u);
    case Enq(_, _) => EnqShortens(s, u);
    case Deq(_) => DeqShortens(s, u);
    case Retire(_) => RetireShortens(s, u);
  }

  /** The records a thread has still to visit are records of the hazard list. */
  predicate TodoOk(s: State, t: Thread) {
    match Pc(s, t)
    case Reg(_, TestFlag(todo)) => |todo| <= |s.records|
    case Reg(_, NextRecord(todo)) => |todo| <= |s.records|
    case Retire(Scan0(todo, _)) => |todo| <= |s.records|
    case Retire(Scan1(todo, _)) => |todo| <= |s.records|
    case _ => true
  }

  lemma RecordsGrow(s: State, u: Turn)
    ensures |s.records| <= |Step(s, u).records|
  {
    if Pc(s, u.t).Reg? { hide EnqStep, DeqStep, RetireStep; return; }
    RecordsStay(s, u);
  }

  lemma OwnTodo(s: State, u: Turn)
    requires TodoOk(s, u.t)
    ensures TodoOk(Step(s, u), u.t)
  {
    hide Kept;
    match Pc(s, u.t)
    case Enq(_, _) => hide DeqStep, RetireStep, RegStep; return;
    case Deq(_) => hide EnqStep, RetireStep, RegStep; return;
    case Retire(_) => hide EnqStep, DeqStep, RegStep; return;
    case Reg(_, _) => hide EnqStep, DeqStep, RetireStep; return;
    case _ => return;
  }

  lemma {:induction false} RunKeepsTodo(schedule: seq<Turn>, t: Thread)
    ensures TodoOk(Run(schedule), t)
  {
    if schedule != [] {
      var before, u := schedule[..|schedule| - 1], schedule[|schedule| - 1];
      RunKeepsTodo(before, t);
      hide Step;
      if u.t == t {
        hide TodoOk;
        OwnTodo(Run(before), u);
      } else {
        OthersUntouched(Run(before), u, t);
        RecordsGrow(Run(before), u);
      }
    }
  }

  /** `schedule`, and then `n` instructions of thread `t` alone. */
  function Alone(schedule: seq<Turn>, t: Thread, n: nat): seq<Turn> {
    if n == 0 then schedule else Alone(schedule, t, n - 1) + [Turn(t, Op.Dequeue, false, None, None)]
  }

  lemma AloneStep(schedule: seq<Turn>, t: Thread, n: nat)
    requires n > 0
    ensures Run(Alone(schedule, t, n)) ==
            Step(Run(Alone(schedule, t, n - 1)), Turn(t, Op.Dequeue, false, None, None))
  {
    var before, u := Alone(schedule, t, n - 1), Turn(t, Op.Dequeue, false, None, None);
    assert (before + [u])[..|before|] == before;
    hide Step;
  }

  lemma {:induction false} AloneShortens(schedule: seq<Turn>, t: Thread, n: nat)
    requires forall m: nat :: m < n ==> !Pc(Run(Alone(schedule, t, m)), t).Idle?
    ensures Left(Run(Alone(schedule, t, n)), t) + n <= Left(Run(schedule), t)
  {
    hide Run, Inv, Step, Left;
    if n > 0 {
      AloneShortens(schedule, t, n - 1);
      AloneStep(schedule, t, n);
      RunKeepsInv(Alone(schedule, t, n - 1));
      StepShortens(Run(Alone(schedule, t, n - 1)), Turn(t, Op.Dequeue, false, None, None));
    }
  }

  lemma NothingLeft(s: State, t: Thread)
    requires Left(s, t) == 0
    ensures Pc(s, t).Idle?
  {
  }

  lemma {:induction false} IdleSoon(schedule: seq<Turn>, t: Thread, n: nat) returns (m: nat)
    requires forall k: nat :: k < n ==> !Pc(Run(Alone(schedule, t, k)), t).Idle?
    ensures m <= Left(Run(schedule), t) && Pc(Run(Alone(schedule, t, m)), t).Idle?
    decreases Left(Run(schedule), t) - n
  {
    hide Run, Left, Alone;
    AloneShortens(schedule, t, n);
    if Pc(Run(Alone(schedule, t, n)), t).Idle? { return n; }
    if Left(Run(Alone(schedule, t, n)), t) == 0 { NothingLeft(Run(Alone(schedule, t, n)), t); }
    m := IdleSoon(schedule, t, n + 1);
  }

  /** From every reachable state a thread that runs alone, without spurious failures, finishes its call
      within 4 * N + 31 instructions, N being the number of records in the hazard list. */
  lemma FinishesAlone(schedule: seq<Turn>, t: Thread) returns (n: nat)
    ensures n <= 4 * |Run(schedule).records| + 31 && Pc(Run(Alone(schedule, t, n)), t).Idle?
  {
    hide Run, Left, Alone, TodoOk;
    RunKeepsTodo(schedule, t);
    LeftBounded(Run(schedule), t);
    n := IdleSoon(schedule, t, 0);
  }

  // ---------------------------------------------------------------- what the hazard slots hold

  predicate SlotOk(s: State, slot: Option<Node>) { slot.Some? ==> Linked(s, slot.value) }

  /** Slots hold nodes that are or have been in the queue; a new record's do so once they have been cleared. */
  predicate SlotsOk(s: State, t: Thread) {
    var l := Th(s, t);
    && (!(l.pc.Reg? && l.pc.gop.Clear0?) ==> SlotOk(s, l.slot0))
    && (!(l.pc.Reg? && (l.pc.gop.Clear0? || l.pc.gop.Clear1?)) ==> SlotOk(s, l.slot1))
  }

  lemma LinkedStays(s: State, u: Turn, n: Node)
    requires Linked(s, n)
    ensures Linked(Step(s, u), n)
  {
    hide Kept;
    match Pc(s, u.t)
    case Enq(_, CasNext(_)) => return;
    case Enq(_, _) => return;
    case Deq(_) => return;
    case Retire(_) => return;
    case _ => return;
  }

  /** What an instruction of `t` leaves in the slots of `t` was in them or is a linked node. */
  ghost predicate Wrote(s: State, s': State, t: Thread) {
    var l, l' := Th(s, t), Th(s', t);
    && (l'.slot0 == l.slot0 || SlotOk(s, l'.slot0) || (l'.pc.Reg? && l'.pc.gop.Clear0?))
    && (l'.slot1 == l.slot1 || SlotOk(s, l'.slot1) || (l'.pc.Reg? && l'.pc.gop.Clear0?))
    && (l.pc.Reg? && l.pc.gop.Clear0? ==> l'.slot0.None? && l'.pc.Reg? && l'.pc.gop.Clear1?)
    && (l.pc.Reg? && l.pc.gop.Clear1? ==> l'.slot1.None? && !(l'.pc.Reg? && l'.pc.gop.Clear0?))
  }

  lemma DeqWrites(s: State, u: Turn)
    requires Inv(s) && Pc(s, u.t).Deq?
    ensures Wrote(s, Step(s, u), u.t)
  {
    assert ThreadOk(s, u.t);
    if Pc(s, u.t).dop.PublishNext? && Pc(s, u.t).dop.link.Some? { NextIsLinked(s, Pc(s, u.t).dop.head); }
    hide Inv, Linked, EnqStep, RetireStep, RegStep;
    match Pc(s, u.t).dop
    case PublishHead(_) => return;
    case PublishNext(_, _, _) => return;
    case _ => return;
  }

  lemma EnqWrites(s: State, u: Turn)
    requires Inv(s) && Pc(s, u.t).Enq?
    ensures Wrote(s, Step(s, u), u.t)
  {
    assert ThreadOk(s, u.t);
    hide Inv, Linked, DeqStep, RetireStep, RegStep;
    match Pc(s, u.t).eop
    case Publish(_) => return;
    case _ => return;
  }

  lemma RestWrites(s: State, u: Turn)
    requires !Pc(s, u.t).Enq? && !Pc(s, u.t).Deq?
    ensures Wrote(s, Step(s, u), u.t)
  {
    hide Linked, EnqStep, DeqStep, Kept;
    match Pc(s, u.t)
    case Retire(_) => hide RegStep; return;
    case Reg(_, _) => hide RetireStep; return;
    case _ => return;
  }

  lemma OwnSlots(s: State, u: Turn)
    requires Inv(s) && SlotsOk(s, u.t)
    ensures SlotsOk(Step(s, u), u.t)
  {
    hide Inv, Step, Linked;
    match Pc(s, u.t) {
      case Enq(_, _) => EnqWrites(s, u);
      case Deq(_) => DeqWrites(s, u);
      case _ => RestWrites(s, u);
    }
    var l' := Th(Step(s, u), u.t);
    if l'.slot0.Some? && Linked(s, l'.slot0.value) { LinkedStays(s, u, l'.slot0.value); }
    if l'.slot1.Some? && Linked(s, l'.slot1.value) { LinkedStays(s, u, l'.slot1.value); }
  }

  lemma NextIsLinked(s: State, n: Node)
    requires Inv(s) && Linked(s, n) && Next(s, n).Some?
    ensures Linked(s, Next(s, n).value)
  {
    assert NodeOk(s, n) && LogAt(s, Pos(s, n) + 1);
  }

  lemma {:induction false} RunKeepsSlots(schedule: seq<Turn>, t: Thread)
    ensures SlotsOk(Run(schedule), t)
  {
    if schedule != [] {
      var before, u := schedule[..|schedule| - 1], schedule[|schedule| - 1];
      var s := Run(before);
      RunKeepsSlots(before, t);
      RunKeepsInv(before);
      hide Inv, Step, Linked;
      if u.t == t {
        hide SlotsOk;
        OwnSlots(s, u);
      } else {
        OthersUntouched(s, u, t);
        if Th(s, t).slot0.Some? && SlotOk(s, Th(s, t).slot0) { LinkedStays(s, u, Th(s, t).slot0.value); }
        if Th(s, t).slot1.Some? && SlotOk(s, Th(s, t).slot1) { LinkedStays(s, u, Th(s, t).slot1.value); }
      }
    }
  }

  /** Whatever a new record's memory contained, a thread past its registration publishes nothing but nodes that
      are or have been in the queue. */
  lemma SlotsNameNodes(schedule: seq<Turn>, t: Thread)
    requires !Pc(Run(schedule), t).Reg?
    ensures var l := Th(Run(schedule), t);
            SlotOk(Run(schedule), l.slot0) && SlotOk(Run(schedule), l.slot1)
  {
    RunKeepsSlots(schedule, t);
    hide Run;
  }
}
