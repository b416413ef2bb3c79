/**
 What a caller of the SWAP queue gets: an enqueue puts its argument in once and leaves it linked, and a
 dequeue comes back empty-handed exactly if, when it looked, the queue was empty or a producer still
 owed the first link.
 */
module SwapCalls {
  import opened Cells
  import opened SwapQueue

  // ---------------------------------------------------------------- producers

  /** The argument of the enqueue a producer is in or made last. */
  function Argument(schedule: seq<Turn>, t: Thread): Option<Value> {
    if schedule == [] then None
    else
      var before, u := schedule[..|schedule| - 1], schedule[|schedule| - 1];
      if u.Produce? && u.t == t && Pc(Run(before), t).Idle? then Some(u.v) else Argument(before, t)
  }

  /** The values a producer has swapped in since its last call began. */
  function Puts(schedule: seq<Turn>, t: Thread): seq<Value> {
    if schedule == [] then []
    else
      var before, u := schedule[..|schedule| - 1], schedule[|schedule| - 1];
      var s, s' := Run(before), Run(schedule);
      if !(u.Produce? && u.t == t) then Puts(before, t)
      else if Pc(s, t).Idle? then []
      else Puts(before, t) + if |s.g.put| < |s'.g.put| then s'.g.put[|s.g.put|..] else []
  }

  predicate PutOk(s: State, t: Thread, v: Value, puts: seq<Value>) {
    match Pc(s, t)
    case Idle => puts == [v]
    case Alloc(x) => x == v && puts == []
    case SwapTail(n) => Data(s, n) == v && puts == []
    case Link(_, _) => puts == [v]
  }

  lemma OwnPut(s: State, t: Thread, v: Value, addr: Node, arg: Value, puts: seq<Value>)
    requires !Pc(s, t).Idle? && PutOk(s, t, arg, puts)
    ensures var s' := ProducerStep(s, t, v, addr);
            PutOk(s', t, arg, puts + if |s.g.put| < |s'.g.put| then s'.g.put[|s.g.put|..] else [])
  {
    match Pc(s, t)
    case Alloc(_) => return;
    case SwapTail(_) => return;
    case Link(_, _) => return;
  }

  lemma OthersPut(s: State, u: Turn, t: Thread, arg: Value, puts: seq<Value>)
    requires Inv(s) && PutOk(s, t, arg, puts) && !(u.Produce? && u.t == t)
    ensures PutOk(Step(s, u), t, arg, puts) && Pc(Step(s, u), t) == Pc(s, t)
  {
    assert ProducerOk(s, t);
    hide Inv;
    if u.Produce? { hide ConsumerStep; return; }
    ConsumerOnlyMoves(s, u.call);
    hide ConsumerStep;
  }

  lemma ConsumerOnlyMoves(s: State, call: Call)
    ensures ConsumerStep(s, call).pc == s.pc && ConsumerStep(s, call).data == s.data
  {
  }

  ghost predicate PutKnown(schedule: seq<Turn>, t: Thread) {
    match Argument(schedule, t)
    case None => Pc(Run(schedule), t).Idle?
    case Some(v) => PutOk(Run(schedule), t, v, Puts(schedule, t))
  }

  lemma OthersStay(s: State, u: Turn, t: Thread)
    requires !(u.Produce? && u.t == t)
    ensures Pc(Step(s, u), t) == Pc(s, t)
  {
    if u.Consume? { ConsumerOnlyMoves(s, u.call); }
    hide ConsumerStep;
  }

  lemma {:induction false} RunKeepsPut(schedule: seq<Turn>, t: Thread)
    ensures PutKnown(schedule, t)
  {
    if schedule != [] {
      var before, u := schedule[..|schedule| - 1], schedule[|schedule| - 1];
      var s := Run(before);
      RunKeepsPut(before, t);
      RunKeepsInv(before);
      assert u.Produce? && Pc(s, u.t).Idle? ==> Pc(Step(s, u), u.t) == Alloc(u.v);
      hide Inv, ProducerStep, ConsumerStep, PutOk;
      if !(u.Produce? && u.t == t) {
        OthersStay(s, u, t);
        if Argument(before, t).Some? { OthersPut(s, u, t, Argument(before, t).value, Puts(before, t)); }
      } else if !Pc(s, t).Idle? {
        OwnPut(s, t, u.v, u.addr, Argument(before, t).value, Puts(before, t));
      } else {
        Starts(s, u, t);
      }
    }
  }

  lemma Starts(s: State, u: Turn, t: Thread)
    requires u.Produce? && u.t == t && Pc(s, t).Idle?
    ensures PutOk(Step(s, u), t, u.v, [])
  {
  }

  /** An enqueue that is over has swapped its argument in, once, and owes no link. */
  lemma EnqueueStoresItsArgument(schedule: seq<Turn>, t: Thread, p: Node)
    requires Pc(Run(schedule), t).Idle? && Argument(schedule, t).Some?
    ensures Puts(schedule, t) == [Argument(schedule, t).value]
    ensures p in Run(schedule).g.debtor ==> Run(schedule).g.debtor[p] != t
  {
    RunKeepsPut(schedule, t);
    RunKeepsInv(schedule);
    assert DebtOk(Run(schedule), p, t);
  }

  // ---------------------------------------------------------------- the consumer

  /** What an instruction of the consumer finds: whether the queue is empty, and whether its first link is missing. */
  datatype View = View(empty: bool, missing: bool)

  /** A call of the consumer: which it is, what its instructions found one by one, the values it has delivered,
      and the answer of a test of emptiness. */
  datatype Consuming = Consuming(call: Call, saw: seq<View>, got: seq<Value>, answer: Option<bool>)

  predicate Empty(s: State) { |s.g.log| == s.g.hi + 1 }

  /** The queue is empty, or a producer still owes the link of its first node. */
  ghost predicate FirstMissing(s: State) {
    Empty(s) || exists t: Thread :: Pc(s, t).Link? && Pc(s, t).pred == s.head
  }

  ghost function LastCall(schedule: seq<Turn>): Option<Consuming> {
    if schedule == [] then None
    else
      var before, u := schedule[..|schedule| - 1], schedule[|schedule| - 1];
      var s, s', k := Run(before), Run(schedule), LastCall(before);
      if u.Produce? then k
      else if s.cpc.Rest? then Some(Consuming(u.call, [], [], None))
      else if k.None? then None
      else Some(ConsumingOn(k.value, s, s'))
  }

  ghost function ConsumingOn(k: Consuming, s: State, s': State): Consuming {
    Consuming(k.call, k.saw + [View(Empty(s), FirstMissing(s))],
              k.got + if |s.g.got| < |s'.g.got| then s'.g.got[|s.g.got|..] else [], Answer(s))
  }

  /** What a call that is over has done: a dequeue has delivered a value unless its second instruction found the
      first link missing, the weak test says what its second instruction found, and the strong one whether its
      second found the queue empty and its third the first link missing. */
  predicate Delivered(k: Consuming) {
    match k.call
    case Dequeue => |k.saw| == (if |k.got| == 0 then 2 else 6) && |k.got| == (if k.saw[1].missing then 0 else 1)
    case IsEmptyWeak => |k.saw| == 2 && k.answer == Some(k.saw[1].missing)
    case IsEmptyStrong => |k.saw| == 3 && k.answer == Some(k.saw[1].empty && k.saw[2].missing)
  }

  /** Where the consumer is in its call. */
  predicate GotOk(s: State, k: Consuming) {
    match s.cpc
    case Rest => Delivered(k)
    case LoadHead => k.call.Dequeue? && k.saw == [] && k.got == []
    case CheckNext(_) => k.call.Dequeue? && |k.saw| == 1 && k.got == []
    case LoadNext(_) => k.call.Dequeue? && |k.saw| == 2 && !k.saw[1].missing && k.got == []
    case StoreHead(_, _) => k.call.Dequeue? && |k.saw| == 3 && !k.saw[1].missing && k.got == []
    case ReadData(_, _) => k.call.Dequeue? && |k.saw| == 4 && !k.saw[1].missing && k.got == []
    case Free(_) => k.call.Dequeue? && |k.saw| == 5 && !k.saw[1].missing && |k.got| == 1
    case WeakHead => k.call.IsEmptyWeak? && k.saw == []
    case WeakNext(_) => k.call.IsEmptyWeak? && |k.saw| == 1
    case StrongHead => k.call.IsEmptyStrong? && k.saw == []
    case StrongTail(_) => k.call.IsEmptyStrong? && |k.saw| == 1
    case StrongNext(_, _) => k.call.IsEmptyStrong? && |k.saw| == 2 && k.saw[1].empty == s.g.wasEmpty
  }

  lemma ConsumerGets(s: State, call: Call, k: Consuming)
    requires Inv(s) && !s.cpc.Rest? && GotOk(s, k)
    requires s.cpc.CheckNext? || s.cpc.WeakNext? || s.cpc.StrongNext?
             ==> (Next(s, s.cpc.head).None? <==> FirstMissing(s))
    ensures GotOk(ConsumerStep(s, call), ConsumingOn(k, s, ConsumerStep(s, call)))
  {
    assert ConsumerOk(s);
    hide Inv, FirstMissing;
    match s.cpc
    case LoadHead => return;
    case CheckNext(_) => return;
    case LoadNext(_) => return;
    case StoreHead(_, _) => return;
    case ReadData(_, _) => return;
    case Free(_) => return;
    case WeakNext(_) => return;
    case StrongTail(_) => return;
    case StrongNext(_, _) => return;
    case _ => return;
  }

  ghost predicate GotKnown(schedule: seq<Turn>) {
    match LastCall(schedule)
    case None => Run(schedule).cpc.Rest?
    case Some(k) => GotOk(Run(schedule), k)
  }

  lemma ProducersStay(s: State, t: Thread, v: Value, addr: Node)
    ensures ProducerStep(s, t, v, addr).cpc == s.cpc && ProducerStep(s, t, v, addr).g.wasEmpty == s.g.wasEmpty
  {
  }

  lemma {:induction false} RunKeepsGot(schedule: seq<Turn>)
    ensures GotKnown(schedule)
  {
    if schedule != [] {
      var before, u := schedule[..|schedule| - 1], schedule[|schedule| - 1];
      var s := Run(before);
      RunKeepsGot(before);
      RunKeepsInv(before);
      if s.cpc.CheckNext? || s.cpc.WeakNext? || s.cpc.StrongNext? { WeakTestMeans(before); assert ConsumerOk(s); }
      hide Inv, ProducerStep, FirstMissing, ConsumingOn;
      match u
      case Produce(t, v, addr) => ProducersStay(s, t, v, addr);
      case Consume(call) => if !s.cpc.Rest? { hide ConsumerStep, GotOk; ConsumerGets(s, call, LastCall(before).value); }
    }
  }

  /** A dequeue that is over has delivered one value, or nothing; nothing exactly if the queue was empty or
      a producer still owed the first link when the dequeue looked at that link, its second instruction.
      It never takes more than six instructions.  The tests of emptiness answer as exactly. */
  lemma CallsDeliver(schedule: seq<Turn>)
    requires LastCall(schedule).Some?
    ensures Run(schedule).cpc.Rest? ==> Delivered(LastCall(schedule).value)
    ensures !Run(schedule).cpc.Rest? ==> |LastCall(schedule).value.saw| < 6
  {
    hide Run, LastCall, Delivered;
    RunKeepsGot(schedule);
  }

  /** At its look at the first link a dequeue goes on to deliver exactly if that link is not missing. */
  lemma DequeueFindsLinked(schedule: seq<Turn>)
    requires Run(schedule).cpc.CheckNext?
    ensures Step(Run(schedule), Consume(Call.Dequeue)).cpc.LoadNext? <==> !FirstMissing(Run(schedule))
  {
    RunKeepsInv(schedule);
    assert ConsumerOk(Run(schedule));
    WeakTestMeans(schedule);
    hide Run, Inv;
  }

  // ---------------------------------------------------------------- memory

  /** The node a dequeue has taken off the chain and not yet freed. */
  predicate InHand(s: State, n: Node) { (s.cpc.ReadData? && s.cpc.head == n) || s.cpc == Free(n) }

  ghost predicate InUse(s: State, n: Node) {
    InChain(s, n) || InHand(s, n) || exists t: Thread :: Pc(s, t) == SwapTail(n)
  }

  lemma ProducerAccounts(s: State, t: Thread, v: Value, addr: Node, n: Node)
    requires n in s.live ==> InUse(s, n)
    ensures n in ProducerStep(s, t, v, addr).live ==> InUse(ProducerStep(s, t, v, addr), n)
  {
    var s' := ProducerStep(s, t, v, addr);
    if n in s.live && !InChain(s, n) && !InHand(s, n) {
      var u: Thread :| Pc(s, u) == SwapTail(n);
      assert u != t ==> Pc(s', u) == SwapTail(n);
      assert u == t ==> InChain(s', n);
    } else if n !in s.live && n in s'.live {
      assert Pc(s', t) == SwapTail(n);
    } else {
      assert InChain(s, n) ==> InChain(s', n);
    }
  }

  lemma ConsumerAccounts(s: State, call: Call, n: Node)
    requires n in s.live ==> InUse(s, n)
    ensures n in ConsumerStep(s, call).live ==> InUse(ConsumerStep(s, call), n)
  {
    ConsumerOnlyMoves(s, call);
    ConsumerHandsOn(s, call, n);
    var s' := ConsumerStep(s, call);
    hide ConsumerStep, InChain, InHand;
    if n in s'.live && !InChain(s, n) && !InHand(s, n) {
      var u: Thread :| Pc(s, u) == SwapTail(n);
      assert Pc(s', u) == SwapTail(n);
    }
  }

  lemma ConsumerHandsOn(s: State, call: Call, n: Node)
    ensures var s' := ConsumerStep(s, call);
            && (n in s'.live ==> n in s.live)
            && (n in s'.live && (InChain(s, n) || InHand(s, n)) ==> InChain(s', n) || InHand(s', n))
  {
    match s.cpc
    case StoreHead(_, _) => return;
    case ReadData(_, _) => return;
    case Free(_) => return;
    case _ => return;
  }

  lemma {:induction false} RunAccounts(schedule: seq<Turn>, n: Node)
    ensures n in Run(schedule).live ==> InUse(Run(schedule), n)
  {
    hide InUse, ProducerStep, ConsumerStep;
    if schedule == [] {
      assert n == 0 ==> InChain(INIT, n);
      FirstInUse(n);
    } else {
      var before, u := schedule[..|schedule| - 1], schedule[|schedule| - 1];
      RunAccounts(before, n);
      match u
      case Produce(t, v, addr) => ProducerAccounts(Run(before), t, v, addr, n);
      case Consume(call) => ConsumerAccounts(Run(before), call, n);
    }
  }

  lemma FirstInUse(n: Node)
    ensures n in INIT.live ==> InUse(INIT, n)
  {
    assert n == 0 ==> InChain(INIT, n);
  }

  /** A node's memory is in use exactly while the node is a producer's that is about to swap it in, is in the chain,
      or is in the hand of the dequeue that took it off: no node is freed early, and none leaks. */
  lemma NothingLeaks(schedule: seq<Turn>, n: Node)
    ensures n in Run(schedule).live <==> InUse(Run(schedule), n)
  {
    RunAccounts(schedule, n);
    RunKeepsInv(schedule);
    var s := Run(schedule);
    hide Run;
    assert ConsumerOk(s) && NodeOk(s, n);
    if t: Thread :| Pc(s, t) == SwapTail(n) { assert ProducerOk(s, t); }
    hide Inv;
  }
}
