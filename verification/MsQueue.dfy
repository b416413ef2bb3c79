/**
 The Michael-Scott queue of zm_msqueue.c together with the hazard pointers of zm_hzdptr.h, one shared
 memory access per step.  A node dropped from a retire list counts as reclaimed.
 */
module MsQueue {
  import opened Cells
  import opened ScanSpec

  type Thread = nat
  type Node = nat
  type Value = int

  datatype Op = Enqueue(v: Value) | Dequeue

  datatype EnqOp =
    | LoadTail
    | Publish(tail: Node)               // hzdptrs[0] := tail
    | Validate(tail: Node)              // tail == q->tail ?
    | LoadNext(tail: Node)              // next := tail->next
    | CasNext(tail: Node)               // CAS(tail->next, NULL, node)
    | Help(tail: Node, next: Node)      // weak CAS(q->tail, tail, next)
    | Swing(tail: Node)                 // weak CAS(q->tail, tail, node)

  datatype DeqOp =
    | LoadHead
    | PublishHead(head: Node)           // hzdptrs[0] := head
    | ValidateHead(head: Node)          // head == q->head ?
    | LoadTailD(head: Node)             // tail := q->tail
    | LoadNextD(head: Node, tail: Node) // next := head->next
    | PublishNext(head: Node, tail: Node, link: Option<Node>)  // hzdptrs[1] := next, and branch
    | HelpD(tail: Node, next: Node)     // weak CAS(q->tail, tail, next)
    | CasHead(head: Node, link: Option<Node>)  // CAS(q->head, head, next)
    | Read(head: Node, next: Node)      // *data := next->data

  datatype RetireOp =
    | Push(node: Node)                  // append to the retire list
    | Check                             // length >= 2 * zm_hplist_length ?
    | LoadList                          // first record of the hazard list
    | Scan0(todo: seq<Thread>, plist: seq<Node>)   // read hzdptrs[0] of the first record to do
    | Scan1(todo: seq<Thread>, plist: seq<Node>)   // read hzdptrs[1] of that record
    | Drop(plist: seq<Node>)            // the second stage, on thread-private lists

  /** zm_hzdptr_get and zm_hzdptr_allocate. */
  datatype RegOp =
    | Get                               // zm_my_hplnode == NULL ?
    | LoadRecords                       // first record of the hazard list
    | TestFlag(todo: seq<Thread>)       // test_and_set its active flag, which is set already
    | NextRecord(todo: seq<Thread>)     // its next record
    | Count                             // fetch_add(zm_hplist_length)
    | LoadFirst                         // the new record's next := first record of the hazard list
    | AddRecord(seen: Option<Thread>)   // weak CAS of the head of the hazard list from `seen` to the new record
    | Clear0                            // hzdptrs[0] := NULL
    | Clear1                            // hzdptrs[1] := NULL

  datatype PC =
    | Idle
    | Reg(op: Op, gop: RegOp)
    | Alloc(v: Value)
    | Enq(node: Node, eop: EnqOp)
    | Deq(dop: DeqOp)
    | Retire(rop: RetireOp)

  /** Where a node that left the queue is: with its remover, in a retire list, or reclaimed. */
  datatype Fate = InHand(t: Thread) | Listed(t: Thread) | Dropped

  /** The queue words and nodes. */
  datatype Shared = Shared(head: Node, tail: Node, next: map<Node, Option<Node>>, data: map<Node, Value>, unused: nat)

  /** A thread with its hazard record: the two slots, whether it has a record, and its retire list. */
  datatype Local = Local(pc: PC, slot0: Option<Node>, slot1: Option<Node>, mine: bool, rlist: seq<Node>)

  /**
   History variables: all nodes ever linked in order, their positions, the positions of head and tail,
   the fate of nodes before head, and the threads that have counted themselves into the hazard list.
   */
  datatype History = History(log: seq<Node>, pos: map<Node, nat>, hi: nat, ti: nat, fate: map<Node, Fate>,
                             announced: set<Thread>)

  /** `records` is the hazard list, newest record first; `count` is zm_hplist_length. */
  datatype State = State(q: Shared, records: seq<Thread>, count: nat, th: map<Thread, Local>, g: History)

  const FRESH := Local(Idle, None, None, false, [])
  const INIT := State(Shared(0, 0, map[], map[], 1), [], 0, map[], History([0], map[0 := 0], 0, 0, map[], {}))

  function Next(s: State, n: Node): Option<Node> { At(s.q.next, n, None) }
  function Data(s: State, n: Node): Value { At(s.q.data, n, 0) }
  function Th(s: State, t: Thread): Local { At(s.th, t, FRESH) }
  function Pc(s: State, t: Thread): PC { Th(s, t).pc }
  function FateOf(s: State, n: Node): Option<Fate> { if n in s.g.fate then Some(s.g.fate[n]) else None }

  function Put(s: State, t: Thread, l: Local): State { s.(th := s.th[t := l]) }
  function Goto(s: State, t: Thread, pc: PC): State { Put(s, t, Th(s, t).(pc := pc)) }

  /** The scheduler's choices: who runs, which call an idle thread makes, whether a weak CAS fails for
      no reason, and what an uninitialised hazard record happens to contain. */
  datatype Turn = Turn(t: Thread, op: Op, spurious: bool, junk0: Option<Node>, junk1: Option<Node>)

  function Begin(op: Op): PC { match op case Enqueue(v) => Alloc(v) case Dequeue => Deq(LoadHead) }

  /** CAS on q->tail from `seen` to `to`. */
  function CasTail(s: State, seen: Node, to: Node, spurious: bool): State {
    if s.q.tail == seen && !spurious then s.(q := s.q.(tail := to), g := s.g.(ti := s.g.ti + 1)) else s
  }

  /** The record at the head of the hazard list: a record is known by the thread that made it. */
  function First(records: seq<Thread>): Option<Thread> { if records == [] then None else Some(records[0]) }

  function RegStep(s: State, u: Turn, op: Op, gop: RegOp): State {
    var t := u.t;
    var l := Th(s, t);
    match gop
    case Get => Goto(s, t, if l.mine then Begin(op) else Reg(op, LoadRecords))
    case LoadRecords => Goto(s, t, Reg(op, if s.records == [] then Count else TestFlag(s.records)))
    case TestFlag(todo) => Goto(s, t, Reg(op, NextRecord(todo)))
    case NextRecord(todo) => Goto(s, t, Reg(op, if |todo| <= 1 then Count else TestFlag(todo[1..])))
    case Count =>
      Goto(s.(count := s.count + 1, g := s.g.(announced := s.g.announced + {t})), t, Reg(op, LoadFirst))
    case LoadFirst => Goto(s, t, Reg(op, AddRecord(First(s.records))))
    case AddRecord(seen) =>
      if First(s.records) == seen && !u.spurious then
        Put(s.(records := [t] + s.records), t,
            l.(mine := true, slot0 := u.junk0, slot1 := u.junk1, pc := Reg(op, Clear0)))
      else Goto(s, t, Reg(op, LoadFirst))
    case Clear0 => Put(s, t, l.(slot0 := None, pc := Reg(op, Clear1)))
    case Clear1 => Put(s, t, l.(slot1 := None, pc := Begin(op)))
  }

  function EnqStep(s: State, t: Thread, n: Node, op: EnqOp, spurious: bool): State {
    match op
    case LoadTail => Goto(s, t, Enq(n, Publish(s.q.tail)))
    case Publish(tl) => Put(s, t, Th(s, t).(slot0 := Some(tl), pc := Enq(n, Validate(tl))))
    case Validate(tl) => Goto(s, t, Enq(n, if s.q.tail == tl then LoadNext(tl) else LoadTail))
    case LoadNext(tl) =>
      Goto(s, t, Enq(n, if Next(s, tl).None? then CasNext(tl) else Help(tl, Next(s, tl).value)))
    case CasNext(tl) =>
      if Next(s, tl).None? then
        Goto(s.(q := s.q.(next := s.q.next[tl := Some(n)]),
                g := s.g.(log := s.g.log + [n], pos := s.g.pos[n := |s.g.log|])), t, Enq(n, Swing(tl)))
      else Goto(s, t, Enq(n, LoadTail))
    case Help(tl, nx) => Goto(CasTail(s, tl, nx, spurious), t, Enq(n, LoadTail))
    case Swing(tl) => Goto(CasTail(s, tl, n, spurious), t, Idle)
  }

  function DeqStep(s: State, t: Thread, op: DeqOp, spurious: bool): State {
    match op
    case LoadHead => Goto(s, t, Deq(PublishHead(s.q.head)))
    case PublishHead(h) => Put(s, t, Th(s, t).(slot0 := Some(h), pc := Deq(ValidateHead(h))))
    case ValidateHead(h) => Goto(s, t, Deq(if s.q.head == h then LoadTailD(h) else LoadHead))
    case LoadTailD(h) => Goto(s, t, Deq(LoadNextD(h, s.q.tail)))
    case LoadNextD(h, tl) => Goto(s, t, Deq(PublishNext(h, tl, Next(s, h))))
    case PublishNext(h, tl, nx) =>
      var pc := if h != tl then Deq(CasHead(h, nx)) else if nx.None? then Idle else Deq(HelpD(tl, nx.value));
      Put(s, t, Th(s, t).(slot1 := nx, pc := pc))
    case HelpD(tl, nx) => Goto(CasTail(s, tl, nx, spurious), t, Deq(LoadHead))
    case CasHead(h, nx) =>
      if s.q.head == h && nx.Some? then
        Goto(s.(q := s.q.(head := nx.value), g := s.g.(hi := s.g.hi + 1, fate := s.g.fate[h := InHand(t)])),
             t, Deq(Read(h, nx.value)))
      else Goto(s, t, Deq(LoadHead))
    case Read(h, _) => Goto(s, t, Retire(Push(h)))
  }

  /** The plist after reading one hazard slot. */
  function Collect(plist: seq<Node>, slot: Option<Node>): seq<Node> {
    if slot.Some? then plist + [slot.value] else plist
  }

  function RetireStep(s: State, t: Thread, op: RetireOp): State {
    match op
    case Push(n) =>
      Put(s.(g := s.g.(fate := s.g.fate[n := Listed(t)])), t,
          Th(s, t).(rlist := Th(s, t).rlist + [n], pc := Retire(Check)))
    case Check => Goto(s, t, if |Th(s, t).rlist| >= 2 * s.count then Retire(LoadList) else Idle)
    case LoadList => Goto(s, t, Retire(if s.records == [] then Drop([]) else Scan0(s.records, [])))
    case Scan0(todo, plist) =>
      Goto(s, t, Retire(if todo == [] then Drop(plist) else Scan1(todo, Collect(plist, Th(s, todo[0]).slot0))))
    case Scan1(todo, plist) =>
      var more := if todo == [] then plist else Collect(plist, Th(s, todo[0]).slot1);
      Goto(s, t, Retire(if |todo| <= 1 then Drop(more) else Scan0(todo[1..], more)))
    case Drop(plist) =>
      var kept := Kept(Th(s, t).rlist, plist);
      var fate := map n | n in s.g.fate :: if s.g.fate[n] == Listed(t) && n !in kept then Dropped else s.g.fate[n];
      Put(s.(g := s.g.(fate := fate)), t, Th(s, t).(rlist := kept, pc := Idle))
  }

  /** One instruction of the thread whose turn it is. */
  function Step(s: State, u: Turn): State {
    var t := u.t;
    var l := Th(s, t);
    match l.pc
    case Idle => Goto(s, t, Reg(u.op, Get))
    case Reg(op, gop) => RegStep(s, u, op, gop)
    case Alloc(v) =>
      var n := s.q.unused;
      Goto(s.(q := s.q.(unused := n + 1, data := s.q.data[n := v], next := s.q.next[n := None])), t, Enq(n, LoadTail))
    case Enq(n, op) => EnqStep(s, t, n, op, u.spurious)
    case Deq(op) => DeqStep(s, t, op, u.spurious)
    case Retire(op) => RetireStep(s, t, op)
  }

  // ---------------------------------------------------------------- invariant

  predicate Linked(s: State, n: Node) { n in s.g.pos }
  function Pos(s: State, n: Node): nat { At(s.g.pos, n, 0) }

  /** A linked node sits in the log at its position and points to the node after it. */
  predicate NodeOk(s: State, n: Node) {
    && (s.q.unused <= n ==> Next(s, n).None?)
    && (Linked(s, n) ==>
      && n < s.q.unused && Pos(s, n) < |s.g.log| && s.g.log[Pos(s, n)] == n
      && Next(s, n) == (if Pos(s, n) + 1 < |s.g.log| then Some(s.g.log[Pos(s, n) + 1]) else None))
  }

  predicate LogAt(s: State, k: nat) {
    k < |s.g.log| ==> Linked(s, s.g.log[k]) && Pos(s, s.g.log[k]) == k
  }

  /** Head and tail point into the log; head never passes tail, and tail lags the last node by at most one. */
  predicate EndsOk(s: State) {
    && s.g.hi <= s.g.ti < |s.g.log| <= s.g.ti + 2
    && s.q.head == s.g.log[s.g.hi] && s.q.tail == s.g.log[s.g.ti]
  }

  /** The chain of links is the log. */
  ghost predicate LogOk(s: State) {
    EndsOk(s) && (forall n: Node :: NodeOk(s, n)) && (forall k: nat :: LogAt(s, k))
  }

  /** The node a thread has allocated and not yet linked. */
  function Private(pc: PC): Option<Node> { if pc.Enq? && !pc.eop.Swing? then Some(pc.node) else None }

  predicate Behind(s: State, n: Node, bound: nat) { Linked(s, n) && Pos(s, n) <= bound }

  /** What a thread may rely on at each instruction. */
  predicate ThreadOk(s: State, t: Thread) {
    match Pc(s, t)
    case Enq(n, op) =>
      && Th(s, t).mine && n < s.q.unused && (!op.Swing? ==> !Linked(s, n) && Next(s, n).None?)
      && (match op
          case LoadTail => true
          case Publish(tl) => Behind(s, tl, s.g.ti)
          case Validate(tl) => Behind(s, tl, s.g.ti) && Th(s, t).slot0 == Some(tl)
          case LoadNext(tl) => Behind(s, tl, s.g.ti) && Th(s, t).slot0 == Some(tl)
          case CasNext(tl) => Behind(s, tl, s.g.ti) && Th(s, t).slot0 == Some(tl)
          case Help(tl, nx) => Behind(s, tl, s.g.ti) && Next(s, tl) == Some(nx)
          case Swing(tl) => Behind(s, tl, s.g.ti) && Next(s, tl) == Some(n))
    case Deq(op) =>
      && Th(s, t).mine
      && (match op
          case LoadHead => true
          case PublishHead(h) => Behind(s, h, s.g.hi)
          case ValidateHead(h) => Behind(s, h, s.g.hi) && Th(s, t).slot0 == Some(h)
          case LoadTailD(h) => Behind(s, h, s.g.hi) && Th(s, t).slot0 == Some(h)
          case LoadNextD(h, tl) =>
            Behind(s, h, s.g.hi) && Th(s, t).slot0 == Some(h) && Behind(s, tl, s.g.ti) && Pos(s, h) <= Pos(s, tl)
          case PublishNext(h, tl, nx) =>
            && Behind(s, h, s.g.hi) && Behind(s, tl, s.g.ti) && Pos(s, h) <= Pos(s, tl)
            && (nx.None? ==> h == tl) && (nx.Some? ==> Next(s, h) == nx)
          case HelpD(tl, nx) => Behind(s, tl, s.g.ti) && Next(s, tl) == Some(nx)
          case CasHead(h, nx) =>
            Behind(s, h, s.g.hi) && nx.Some? && Next(s, h) == nx && Pos(s, h) + 1 <= s.g.ti && Th(s, t).slot1 == nx
          case Read(h, x) => Behind(s, x, s.g.hi) && Next(s, h) == Some(x) && Th(s, t).slot1 == Some(x))
    case Retire(_) => Th(s, t).mine
    case Alloc(_) => Th(s, t).mine
    case _ => true
  }

  predicate Keeping(pc: PC, n: Node) {
    (pc.Deq? && pc.dop.Read? && pc.dop.head == n) || (pc.Retire? && pc.rop == Push(n))
  }

  /** A node before head has exactly one fate: it is in the hand of its remover, in one retire list, or reclaimed. */
  predicate FateOk(s: State, n: Node, t: Thread) {
    && (FateOf(s, n).Some? <==> Linked(s, n) && Pos(s, n) < s.g.hi)
    && (FateOf(s, n) == Some(InHand(t)) <==> Keeping(Pc(s, t), n))
    && (FateOf(s, n) == Some(Listed(t)) <==> n in Th(s, t).rlist)
  }

  /** The node thread `t` may dereference next, protected by its hazard slot 0 or 1. */
  predicate Protects0(s: State, t: Thread, n: Node) {
    match Pc(s, t)
    case Enq(_, op) => op == LoadNext(n) || op == CasNext(n)
    case Deq(op) => op == LoadTailD(n) || (op.LoadNextD? && op.head == n)
    case _ => false
  }
  predicate Protects1(s: State, t: Thread, n: Node) { Pc(s, t).Deq? && Pc(s, t).dop.Read? && Pc(s, t).dop.next == n }

  /** The scan of `r` has already collected hazard `n`, or has yet to read slot 0 (or 1) of `t`. */
  predicate Covers0(op: RetireOp, t: Thread, n: Node) {
    match op
    case Scan0(todo, plist) => t in todo || n in plist
    case Scan1(todo, plist) => (todo != [] && t in todo[1..]) || n in plist
    case Drop(plist) => n in plist
    case _ => true
  }
  predicate Covers1(op: RetireOp, t: Thread, n: Node) {
    match op
    case Scan0(todo, plist) => t in todo || n in plist
    case Scan1(todo, plist) => t in todo || n in plist
    case Drop(plist) => n in plist
    case _ => true
  }

  predicate ScanOk(s: State, r: Thread, t: Thread, n: Node) {
    Pc(s, r).Retire? && n in Th(s, r).rlist ==>
      && (Protects0(s, t, n) ==> Covers0(Pc(s, r).rop, t, n))
      && (Protects1(s, t, n) ==> Covers1(Pc(s, r).rop, t, n))
  }

  /** No thread is about to dereference a reclaimed node. */
  predicate SafeOk(s: State, t: Thread, n: Node) {
    Protects0(s, t, n) || Protects1(s, t, n) ==> FateOf(s, n) != Some(Dropped)
  }

  /** The thread has counted itself in and its record is not yet in the hazard list. */
  predicate Adding(pc: PC) { pc.Reg? && (pc.gop.LoadFirst? || pc.gop.AddRecord?) }
  predicate Seeking(gop: RegOp) { gop.LoadRecords? || gop.TestFlag? || gop.NextRecord? || gop.Count? }

  predicate RecordOk(s: State, t: Thread) {
    && (Th(s, t).mine <==> t in s.records)
    && (Th(s, t).mine ==> t in s.g.announced)
    && (t in s.g.announced ==> Th(s, t).mine || Adding(Pc(s, t)))
    && (Adding(Pc(s, t)) ==> t in s.g.announced && !Th(s, t).mine)
    && (Pc(s, t).Reg? && (Pc(s, t).gop.Clear0? || Pc(s, t).gop.Clear1?) ==> Th(s, t).mine)
    && (Pc(s, t).Reg? && Seeking(Pc(s, t).gop) ==> !Th(s, t).mine)
    && NoDuplicates(Th(s, t).rlist)
  }

  ghost predicate Inv(s: State) {
    && LogOk(s)
    && (forall t: Thread :: ThreadOk(s, t))
    && (forall n: Node, t: Thread :: FateOk(s, n, t))
    && (forall r: Thread, t: Thread, n: Node :: ScanOk(s, r, t, n))
    && (forall t: Thread, n: Node :: SafeOk(s, t, n))
    && (forall t: Thread :: RecordOk(s, t))
    && (forall t: Thread, u: Thread :: t != u && Private(Pc(s, t)).Some? ==> Private(Pc(s, t)) != Private(Pc(s, u)))
  }

  // ---------------------------------------------------------------- steps that leave the queue and the lists alone

  ghost predicate SameOthers(s: State, s': State, t: Thread) {
    forall u: Thread | u != t ::
      && Th(s', u) == Th(s, u)
      && (u in s'.records <==> u in s.records) && (u in s'.g.announced <==> u in s.g.announced)
  }

  /** Only `t`'s control state and hazard slots, and the registration of `t`, change. */
  ghost predicate Moved(s: State, s': State, t: Thread) {
    && SameOthers(s, s', t) && s'.q == s.q && s'.g == s.g.(announced := s'.g.announced)
    && Th(s', t).rlist == Th(s, t).rlist
  }

  /** Only `t`'s control state, hazard slots and registration change; what it newly protects is still in the queue. */
  ghost predicate LocalStep(s: State, s': State, t: Thread) {
    && Moved(s, s', t)
    && ThreadOk(s', t) && RecordOk(s', t)
    && (forall n: Node :: Keeping(Pc(s', t), n) <==> Keeping(Pc(s, t), n))
    && (Private(Pc(s', t)).None? || Private(Pc(s', t)) == Private(Pc(s, t)))
    && (forall n: Node :: Protects0(s', t, n) ==> Protects0(s, t, n) || FateOf(s, n).None?)
    && (forall n: Node :: Protects1(s', t, n) ==> Protects1(s, t, n) || FateOf(s, n).None?)
    && (forall u: Thread, n: Node :: u != t ==> ScanOk(s', t, u, n))
  }

  lemma LocalThread(s: State, s': State, t: Thread, u: Thread)
    requires Inv(s) && LocalStep(s, s', t)
    ensures ThreadOk(s', u)
  {
    assert ThreadOk(s, u);
  }

  lemma LocalFate(s: State, s': State, t: Thread, n: Node, u: Thread)
    requires Inv(s) && LocalStep(s, s', t)
    ensures FateOk(s', n, u)
  {
    assert FateOk(s, n, u);
  }

  lemma LocalScan(s: State, s': State, t: Thread, r: Thread, u: Thread, n: Node)
    requires Inv(s) && LocalStep(s, s', t)
    ensures ScanOk(s', r, u, n) && SafeOk(s', u, n)
  {
    assert ScanOk(s, r, u, n) && SafeOk(s, u, n) && FateOk(s, n, r);
  }

  lemma LocalKeepsInv(s: State, s': State, t: Thread)
    requires Inv(s) && LocalStep(s, s', t)
    ensures Inv(s')
  {
    forall u: Thread ensures RecordOk(s', u) { assert RecordOk(s, u); }
    forall u: Thread, v: Thread | u != v && Private(Pc(s', u)).Some? ensures Private(Pc(s', u)) != Private(Pc(s', v)) {
      assert Private(Pc(s, u)).Some? && (Private(Pc(s', v)).None? || Private(Pc(s, v)).Some?);
    }
    forall n: Node ensures NodeOk(s', n) { assert NodeOk(s, n); }
    forall k: nat ensures LogAt(s', k) { assert LogAt(s, k); }
    hide ThreadOk, FateOk, ScanOk, SafeOk, RecordOk;
    forall u: Thread ensures ThreadOk(s', u) { LocalThread(s, s', t, u); }
    forall n: Node, u: Thread ensures FateOk(s', n, u) { LocalFate(s, s', t, n, u); }
    forall r: Thread, u: Thread, n: Node ensures ScanOk(s', r, u, n) { LocalScan(s, s', t, r, u, n); }
    forall u: Thread, n: Node ensures SafeOk(s', u, n) { LocalScan(s, s', t, t, u, n); }
  }

  lemma RegisterMoved(s: State, u: Turn)
    requires Pc(s, u.t).Idle? || Pc(s, u.t).Reg?
    ensures Moved(s, Step(s, u), u.t)
  {
    match Pc(s, u.t)
    case Idle => return;
    case Reg(_, AddRecord(_)) => return;
    case Reg(_, Count) => return;
    case Reg(_, _) => return;
  }

  lemma RegisterThread(s: State, u: Turn)
    requires Inv(s) && (Pc(s, u.t).Idle? || Pc(s, u.t).Reg?)
    ensures ThreadOk(Step(s, u), u.t) && RecordOk(Step(s, u), u.t)
  {
    assert ThreadOk(s, u.t) && RecordOk(s, u.t);
    hide Inv;
    match Pc(s, u.t)
    case Idle => return;
    case Reg(_, _) => return;
  }

  lemma RegisterKeepsInv(s: State, u: Turn)
    requires Inv(s) && (Pc(s, u.t).Idle? || Pc(s, u.t).Reg?)
    ensures Inv(Step(s, u))
  {
    var s', t := Step(s, u), u.t;
    RegisterMoved(s, u);
    RegisterThread(s, u);
    hide Inv, Moved, ThreadOk, RecordOk;
    match Pc(s, u.t)
    case Idle => LocalKeepsInv(s, s', t); return;
    case Reg(_, _) => LocalKeepsInv(s, s', t); return;
  }

  lemma EnqLocalMoved(s: State, u: Turn)
    requires Pc(s, u.t).Enq?
             && var op := Pc(s, u.t).eop;
             op.LoadTail? || op.Publish? || op.Validate? || op.LoadNext? || (op.CasNext? && Next(s, op.tail).Some?)
    ensures Moved(s, Step(s, u), u.t)
  {
    match Pc(s, u.t).eop
    case LoadTail => return;
    case Publish(_) => return;
    case Validate(_) => return;
    case LoadNext(_) => return;
    case CasNext(_) => return;
  }

  lemma EnqLocalThread(s: State, u: Turn)
    requires Inv(s) && Pc(s, u.t).Enq?
             && var op := Pc(s, u.t).eop;
             op.LoadTail? || op.Publish? || op.Validate? || op.LoadNext? || (op.CasNext? && Next(s, op.tail).Some?)
    ensures ThreadOk(Step(s, u), u.t) && RecordOk(Step(s, u), u.t)
  {
    assert ThreadOk(s, u.t) && RecordOk(s, u.t) && EndsOk(s) && LogAt(s, s.g.ti);
    hide Inv;
    match Pc(s, u.t).eop
    case LoadTail => return;
    case Publish(_) => return;
    case Validate(_) => return;
    case LoadNext(_) => return;
    case CasNext(_) => return;
  }

  lemma EnqLocalKeepsInv(s: State, u: Turn)
    requires Inv(s) && Pc(s, u.t).Enq?
             && var op := Pc(s, u.t).eop;
             op.LoadTail? || op.Publish? || op.Validate? || op.LoadNext? || (op.CasNext? && Next(s, op.tail).Some?)
    ensures Inv(Step(s, u))
  {
    var s', t := Step(s, u), u.t;
    EnqLocalMoved(s, u);
    EnqLocalThread(s, u);
    assert FateOk(s, s.q.tail, t) && LogAt(s, s.g.ti) && EndsOk(s);
    hide Inv, Moved, ThreadOk, RecordOk;
    match Pc(s, u.t).eop
    case LoadTail => LocalKeepsInv(s, s', t); return;
    case Publish(_) => LocalKeepsInv(s, s', t); return;
    case Validate(_) => LocalKeepsInv(s, s', t); return;
    case LoadNext(_) => LocalKeepsInv(s, s', t); return;
    case CasNext(_) => LocalKeepsInv(s, s', t); return;
  }

  lemma DeqLocalMoved(s: State, u: Turn)
    requires Pc(s, u.t).Deq?
             && var op := Pc(s, u.t).dop;
             !op.HelpD? && !(op.CasHead? && s.q.head == op.head && op.link.Some?)
    ensures Moved(s, Step(s, u), u.t)
  {
    hide CasTail;
    match Pc(s, u.t).dop
    case LoadHead => return;
    case PublishHead(_) => return;
    case ValidateHead(_) => return;
    case LoadTailD(_) => return;
    case LoadNextD(_, _) => return;
    case PublishNext(_, _, _) => return;
    case CasHead(_, _) => return;
    case Read(_, _) => return;
  }

  lemma DeqLocalThread(s: State, u: Turn)
    requires Inv(s) && Pc(s, u.t).Deq?
             && var op := Pc(s, u.t).dop;
             !op.HelpD? && !(op.CasHead? && s.q.head == op.head && op.link.Some?)
    ensures ThreadOk(Step(s, u), u.t) && RecordOk(Step(s, u), u.t)
  {
    assert ThreadOk(s, u.t) && RecordOk(s, u.t) && EndsOk(s) && LogAt(s, s.g.hi) && LogAt(s, s.g.ti)
           && (Pc(s, u.t).dop.LoadNextD? ==> NodeOk(s, Pc(s, u.t).dop.head) && NodeOk(s, Pc(s, u.t).dop.tail))
           && (Pc(s, u.t).dop.PublishNext? ==> NodeOk(s, Pc(s, u.t).dop.head) && NodeOk(s, Pc(s, u.t).dop.tail));
    hide Inv;
    hide CasTail;
    match Pc(s, u.t).dop
    case LoadHead => return;
    case PublishHead(_) => return;
    case ValidateHead(_) => return;
    case LoadTailD(_) => return;
    case LoadNextD(_, _) => return;
    case PublishNext(_, _, _) => return;
    case CasHead(_, _) => return;
    case Read(_, _) => return;
  }

  lemma DeqLocalKeepsInv(s: State, u: Turn)
    requires Inv(s) && Pc(s, u.t).Deq?
             && var op := Pc(s, u.t).dop;
             !op.HelpD? && !(op.CasHead? && s.q.head == op.head && op.link.Some?)
    ensures Inv(Step(s, u))
  {
    var s', t := Step(s, u), u.t;
    DeqLocalMoved(s, u);
    DeqLocalThread(s, u);
    assert FateOk(s, s.q.head, t) && LogAt(s, s.g.hi) && EndsOk(s);
    hide Inv, Moved, ThreadOk, RecordOk;
    hide CasTail;
    match Pc(s, u.t).dop
    case LoadHead => LocalKeepsInv(s, s', t); return;
    case PublishHead(_) => LocalKeepsInv(s, s', t); return;
    case ValidateHead(_) => LocalKeepsInv(s, s', t); return;
    case LoadTailD(_) => LocalKeepsInv(s, s', t); return;
    case LoadNextD(_, _) => LocalKeepsInv(s, s', t); return;
    case PublishNext(_, _, _) => LocalKeepsInv(s, s', t); return;
    case CasHead(_, _) => LocalKeepsInv(s, s', t); return;
    case Read(_, _) => LocalKeepsInv(s, s', t); return;
  }

  lemma ScanLocalMoved(s: State, u: Turn)
    requires Pc(s, u.t).Retire? && !Pc(s, u.t).rop.Push? && !Pc(s, u.t).rop.Drop?
    ensures Moved(s, Step(s, u), u.t)
  {
    match Pc(s, u.t).rop
    case Check => return;
    case LoadList => return;
    case Scan0(_, _) => return;
    case Scan1(_, _) => return;
  }

  lemma ScanLocalThread(s: State, u: Turn)
    requires Inv(s) && Pc(s, u.t).Retire? && !Pc(s, u.t).rop.Push? && !Pc(s, u.t).rop.Drop?
    ensures ThreadOk(Step(s, u), u.t) && RecordOk(Step(s, u), u.t)
  {
    assert ThreadOk(s, u.t) && RecordOk(s, u.t);
    hide Inv;
    match Pc(s, u.t).rop
    case Check => return;
    case LoadList => return;
    case Scan0(_, _) => return;
    case Scan1(_, _) => return;
  }

  lemma ScanLocalKeepsInv(s: State, u: Turn)
    requires Inv(s) && Pc(s, u.t).Retire? && !Pc(s, u.t).rop.Push? && !Pc(s, u.t).rop.Drop?
    ensures Inv(Step(s, u))
  {
    var s', t := Step(s, u), u.t;
    ScanLocalMoved(s, u);
    ScanLocalThread(s, u);
    forall v: Thread, n: Node | v != t ensures ScanOk(s', t, v, n) {
      assert ScanOk(s, t, v, n) && ThreadOk(s, v) && RecordOk(s, v);
    }
    hide Inv, Moved, ThreadOk, RecordOk, ScanOk;
    match Pc(s, u.t).rop
    case Check => LocalKeepsInv(s, s', t); return;
    case LoadList => LocalKeepsInv(s, s', t); return;
    case Scan0(_, _) => LocalKeepsInv(s, s', t); return;
    case Scan1(_, _) => LocalKeepsInv(s, s', t); return;
  }

  // ---------------------------------------------------------------- instructions that change the queue

  /** The queue only grows, and nobody but `t` is touched. */
  ghost predicate Grows(s: State, s': State, t: Thread) {
    && SameOthers(s, s', t) && s.q.unused <= s'.q.unused && s.g.hi <= s'.g.hi && s.g.ti <= s'.g.ti
    && (forall n: Node :: Linked(s, n) ==> Linked(s', n) && Pos(s', n) == Pos(s, n))
    && (forall n: Node :: Next(s, n).Some? ==> Next(s', n) == Next(s, n))
    && (forall u: Thread, n: Node :: u != t && Private(Pc(s, u)) == Some(n) ==> !Linked(s', n) && Next(s', n).None?)
  }

  lemma GrowThread(s: State, s': State, t: Thread, u: Thread)
    requires Inv(s) && Grows(s, s', t) && u != t
    ensures ThreadOk(s', u)
  {
    assert ThreadOk(s, u);
  }

  /** The parts of the invariant that follow for every step that only lets the queue grow. */
  lemma GrowKeepsInv(s: State, s': State, t: Thread)
    requires Inv(s) && Grows(s, s', t)
    requires LogOk(s') && ThreadOk(s', t) && RecordOk(s', t)
    requires forall n: Node, u: Thread :: FateOk(s', n, u)
    requires forall r: Thread, u: Thread, n: Node :: ScanOk(s', r, u, n)
    requires forall u: Thread, n: Node :: SafeOk(s', u, n)
    requires Private(Pc(s', t)).Some? ==> forall u: Thread :: u != t ==> Private(Pc(s, u)) != Private(Pc(s', t))
    ensures Inv(s')
  {
    forall u: Thread ensures ThreadOk(s', u) { if u != t { GrowThread(s, s', t, u); } }
    forall u: Thread ensures RecordOk(s', u) { assert RecordOk(s, u); }
    forall u: Thread, v: Thread | u != v && Private(Pc(s', u)).Some? ensures Private(Pc(s', u)) != Private(Pc(s', v)) {
      assert u != t ==> Pc(s', u) == Pc(s, u);
      assert v != t ==> Pc(s', v) == Pc(s, v);
    }
    hide LogOk, ThreadOk, RecordOk, FateOk, ScanOk, SafeOk, Grows;
  }

  /** Fates, lists and protections are as before, or `t`'s new protection is of a node still in the queue. */
  lemma SameListsKeepsInv(s: State, s': State, t: Thread)
    requires Inv(s) && Grows(s, s', t)
    requires LogOk(s') && ThreadOk(s', t) && RecordOk(s', t)
    requires s'.g.fate == s.g.fate && Th(s', t).rlist == Th(s, t).rlist && s'.g.hi == s.g.hi
    requires forall n: Node :: Linked(s', n) && !Linked(s, n) ==> s.g.hi <= Pos(s', n)
    requires forall n: Node :: !Keeping(Pc(s', t), n) && !Keeping(Pc(s, t), n)
    requires forall n: Node :: !Protects0(s', t, n) && !Protects1(s', t, n)
    requires !Pc(s', t).Retire? && !Pc(s, t).Retire?
    requires Private(Pc(s', t)).Some? ==> forall u: Thread :: u != t ==> Private(Pc(s, u)) != Private(Pc(s', t))
    ensures Inv(s')
  {
    forall n: Node, u: Thread ensures FateOk(s', n, u) { assert FateOk(s, n, u) && FateOk(s, n, t); }
    hide LogOk, ThreadOk, RecordOk, FateOk;
    forall r: Thread, u: Thread, n: Node ensures ScanOk(s', r, u, n) { assert ScanOk(s, r, u, n); }
    forall u: Thread, n: Node ensures SafeOk(s', u, n) { assert SafeOk(s, u, n); }
    hide ScanOk, SafeOk, Inv, Grows;
    GrowKeepsInv(s, s', t);
  }

  lemma AllocKeepsInv(s: State, u: Turn)
    requires Inv(s) && Pc(s, u.t).Alloc?
    ensures Inv(Step(s, u))
  {
    var s', t, n := Step(s, u), u.t, s.q.unused;
    assert ThreadOk(s, t) && RecordOk(s, t) && NodeOk(s, n) && EndsOk(s);
    forall x: Node ensures NodeOk(s', x) { assert NodeOk(s, x); }
    forall k: nat ensures LogAt(s', k) { assert LogAt(s, k); }
    forall v: Thread, x: Node | v != t && Private(Pc(s, v)) == Some(x)
      ensures x != n && !Linked(s', x) && Next(s', x).None? {
      assert ThreadOk(s, v);
    }
    hide Inv;
    SameListsKeepsInv(s, s', t);
  }

  lemma LinkLog(s: State, u: Turn)
    requires Inv(s) && Pc(s, u.t).Enq? && Pc(s, u.t).eop.CasNext? && Next(s, Pc(s, u.t).eop.tail).None?
    ensures LogOk(Step(s, u)) && Pos(s, Pc(s, u.t).eop.tail) + 1 == |s.g.log| && s.g.ti + 1 == |s.g.log|
  {
    var s', t, tl, n := Step(s, u), u.t, Pc(s, u.t).eop.tail, Pc(s, u.t).node;
    assert ThreadOk(s, t) && NodeOk(s, tl) && NodeOk(s, n) && EndsOk(s);
    forall x: Node ensures NodeOk(s', x) { assert NodeOk(s, x); }
    forall k: nat ensures LogAt(s', k) { assert LogAt(s, k); }
    hide Inv;
  }

  lemma LinkKeepsInv(s: State, u: Turn)
    requires Inv(s) && Pc(s, u.t).Enq? && Pc(s, u.t).eop.CasNext? && Next(s, Pc(s, u.t).eop.tail).None?
    ensures Inv(Step(s, u))
  {
    var s', t, tl, n := Step(s, u), u.t, Pc(s, u.t).eop.tail, Pc(s, u.t).node;
    LinkLog(s, u);
    assert ThreadOk(s, t) && RecordOk(s, t) && EndsOk(s);
    forall v: Thread, x: Node | v != t && Private(Pc(s, v)) == Some(x) ensures !Linked(s', x) && Next(s', x).None? {
      assert ThreadOk(s, v);
    }
    hide Inv, LogOk;
    SameListsKeepsInv(s, s', t);
  }

  predicate SwingsTail(pc: PC) {
    (pc.Enq? && (pc.eop.Help? || pc.eop.Swing?)) || (pc.Deq? && pc.dop.HelpD?)
  }
  function TailSeen(pc: PC): Node requires SwingsTail(pc) { if pc.Enq? then pc.eop.tail else pc.dop.tail }

  lemma SwingLog(s: State, u: Turn)
    requires Inv(s) && SwingsTail(Pc(s, u.t)) && s.q.tail == TailSeen(Pc(s, u.t)) && !u.spurious
    ensures LogOk(Step(s, u)) && Step(s, u).g.ti == s.g.ti + 1
  {
    var s', t := Step(s, u), u.t;
    assert ThreadOk(s, t) && NodeOk(s, s.q.tail) && EndsOk(s) && LogAt(s, s.g.ti);
    forall x: Node ensures NodeOk(s', x) { assert NodeOk(s, x); }
    forall k: nat ensures LogAt(s', k) { assert LogAt(s, k); }
    hide Inv;
  }

  lemma MissedSwingKeepsInv(s: State, u: Turn)
    requires Inv(s) && SwingsTail(Pc(s, u.t)) && (s.q.tail != TailSeen(Pc(s, u.t)) || u.spurious)
    ensures Inv(Step(s, u))
  {
    var s', t := Step(s, u), u.t;
    assert ThreadOk(s, t) && RecordOk(s, t);
    assert s' == Goto(s, t, Pc(s', t));
    assert ThreadOk(s', t) && RecordOk(s', t);
    assert Pc(s', t).Idle? || Pc(s', t) == Deq(LoadHead)
           || (Pc(s, t).Enq? && Pc(s', t) == Enq(Pc(s, t).node, LoadTail));
    hide Inv, Step, ThreadOk, RecordOk;
    LocalKeepsInv(s, s', t);
  }

  lemma SwingKeepsInv(s: State, u: Turn)
    requires Inv(s) && SwingsTail(Pc(s, u.t)) && s.q.tail == TailSeen(Pc(s, u.t)) && !u.spurious
    ensures Inv(Step(s, u))
  {
    var s', t := Step(s, u), u.t;
    assert ThreadOk(s, t) && RecordOk(s, t);
    SwingLog(s, u);
    forall v: Thread, x: Node | v != t && Private(Pc(s, v)) == Some(x) ensures !Linked(s', x) && Next(s', x).None? {
      assert ThreadOk(s, v);
    }
    assert ThreadOk(s', t) && RecordOk(s', t) && Grows(s, s', t);
    assert Pc(s', t).Idle? || Pc(s', t) == Deq(LoadHead)
           || (Pc(s, t).Enq? && Pc(s', t) == Enq(Pc(s, t).node, LoadTail));
    assert s'.g == s.g.(ti := s'.g.ti) && Th(s', t).rlist == Th(s, t).rlist;
    assert Private(Pc(s', t)).Some? ==> forall v: Thread :: v != t ==> Private(Pc(s, v)) != Private(Pc(s', t));
    hide Inv, LogOk, ThreadOk, RecordOk, Step, Grows;
    SameListsKeepsInv(s, s', t);
  }

  predicate Takes(s: State, pc: PC) { pc.Deq? && pc.dop.CasHead? && s.q.head == pc.dop.head && pc.dop.link.Some? }

  lemma TakeLog(s: State, u: Turn)
    requires Inv(s) && Takes(s, Pc(s, u.t))
    ensures LogOk(Step(s, u)) && s.g.hi + 1 <= s.g.ti
    ensures Pos(s, s.q.head) == s.g.hi && Linked(s, s.q.head)
    ensures Linked(s, Pc(s, u.t).dop.link.value) && Pos(s, Pc(s, u.t).dop.link.value) == s.g.hi + 1
  {
    var s', t := Step(s, u), u.t;
    assert ThreadOk(s, t) && NodeOk(s, s.q.head) && EndsOk(s) && LogAt(s, s.g.hi) && LogAt(s, s.g.hi + 1);
    forall x: Node ensures NodeOk(s', x) { assert NodeOk(s, x); }
    forall k: nat ensures LogAt(s', k) { assert LogAt(s, k); }
    hide Inv;
  }

  lemma TakeFate(s: State, u: Turn, n: Node, v: Thread)
    requires Inv(s) && Takes(s, Pc(s, u.t))
    ensures FateOk(Step(s, u), n, v)
  {
    TakeLog(s, u);
    assert FateOk(s, n, v) && FateOk(s, n, u.t) && NodeOk(s, n) && EndsOk(s);
    hide Inv, LogOk;
  }

  lemma TakeScan(s: State, u: Turn, r: Thread, v: Thread, n: Node)
    requires Inv(s) && Takes(s, Pc(s, u.t))
    ensures ScanOk(Step(s, u), r, v, n) && SafeOk(Step(s, u), v, n)
  {
    TakeLog(s, u);
    assert ScanOk(s, r, v, n) && SafeOk(s, v, n) && FateOk(s, n, r) && FateOk(s, n, v);
    hide Inv, LogOk;
  }

  lemma TakeKeepsInv(s: State, u: Turn)
    requires Inv(s) && Takes(s, Pc(s, u.t))
    ensures Inv(Step(s, u))
  {
    var s', t := Step(s, u), u.t;
    TakeLog(s, u);
    assert ThreadOk(s, t) && RecordOk(s, t);
    forall v: Thread, x: Node | v != t && Private(Pc(s, v)) == Some(x) ensures !Linked(s', x) && Next(s', x).None? {
      assert ThreadOk(s, v);
    }
    assert Grows(s, s', t);
    assert ThreadOk(s', t) && RecordOk(s', t) && Private(Pc(s', t)).None?;
    hide Inv, LogOk, FateOk, ScanOk, SafeOk, ThreadOk, RecordOk, Grows, Step;
    forall n: Node, v: Thread ensures FateOk(s', n, v) { TakeFate(s, u, n, v); }
    forall r: Thread, v: Thread, n: Node ensures ScanOk(s', r, v, n) { TakeScan(s, u, r, v, n); }
    forall v: Thread, n: Node ensures SafeOk(s', v, n) { TakeScan(s, u, t, v, n); }
    GrowKeepsInv(s, s', t);
  }

  // ---------------------------------------------------------------- instructions that change a retire list

  lemma SameQueueGrows(s: State, s': State, t: Thread)
    requires Inv(s) && SameOthers(s, s', t) && s'.q == s.q && s'.g == s.g.(fate := s'.g.fate)
    ensures Grows(s, s', t) && LogOk(s')
  {
    forall n: Node ensures NodeOk(s', n) { assert NodeOk(s, n); }
    forall k: nat ensures LogAt(s', k) { assert LogAt(s, k); }
    forall v: Thread, x: Node | v != t && Private(Pc(s, v)) == Some(x) ensures !Linked(s', x) && Next(s', x).None? {
      assert ThreadOk(s, v);
    }
    assert EndsOk(s);
  }

  lemma PushKeepsInv(s: State, u: Turn)
    requires Inv(s) && Pc(s, u.t).Retire? && Pc(s, u.t).rop.Push?
    ensures Inv(Step(s, u))
  {
    var s', t, m := Step(s, u), u.t, Pc(s, u.t).rop.node;
    SameQueueGrows(s, s', t);
    assert ThreadOk(s, t) && RecordOk(s, t) && FateOk(s, m, t);
    forall n: Node, v: Thread ensures FateOk(s', n, v) { assert FateOk(s, n, v) && FateOk(s, n, t); }
    forall r: Thread, v: Thread, n: Node ensures ScanOk(s', r, v, n) { assert ScanOk(s, r, v, n); }
    forall v: Thread, n: Node ensures SafeOk(s', v, n) { assert SafeOk(s, v, n); }
    hide Inv, LogOk;
    GrowKeepsInv(s, s', t);
  }

  /** The scan reclaims only nodes that nobody is about to dereference. */
  lemma DropFate(s: State, u: Turn, n: Node, v: Thread)
    requires Inv(s) && Pc(s, u.t).Retire? && Pc(s, u.t).rop.Drop?
    ensures FateOk(Step(s, u), n, v) && SafeOk(Step(s, u), v, n)
  {
    var t := u.t;
    assert RecordOk(s, t) && FateOk(s, n, v) && FateOk(s, n, t) && SafeOk(s, v, n) && ScanOk(s, t, v, n);
    KeptMembers(Th(s, t).rlist, Pc(s, t).rop.plist);
    hide Inv, Kept;
  }

  lemma DropKeepsInv(s: State, u: Turn)
    requires Inv(s) && Pc(s, u.t).Retire? && Pc(s, u.t).rop.Drop?
    ensures Inv(Step(s, u))
  {
    var s', t := Step(s, u), u.t;
    SameQueueGrows(s, s', t);
    assert ThreadOk(s, t) && RecordOk(s, t);
    KeptMembers(Th(s, t).rlist, Pc(s, t).rop.plist);
    forall r: Thread, v: Thread, n: Node ensures ScanOk(s', r, v, n) { assert ScanOk(s, r, v, n); }
    assert ThreadOk(s', t) && RecordOk(s', t) && Private(Pc(s', t)).None?;
    hide Inv, LogOk, FateOk, ScanOk, SafeOk, ThreadOk, RecordOk, Grows, Step;
    forall n: Node, v: Thread ensures FateOk(s', n, v) { DropFate(s, u, n, v); }
    forall v: Thread, n: Node ensures SafeOk(s', v, n) { DropFate(s, u, n, v); }
    GrowKeepsInv(s, s', t);
  }

  // ---------------------------------------------------------------- every interleaving

  lemma EnqKeepsInv(s: State, u: Turn)
    requires Inv(s) && Pc(s, u.t).Enq?
    ensures Inv(Step(s, u))
  {
    hide Inv, Step;
    var op := Pc(s, u.t).eop;
    if op.Help? || op.Swing? {
      if s.q.tail == op.tail && !u.spurious { SwingKeepsInv(s, u); } else { MissedSwingKeepsInv(s, u); }
    } else if op.CasNext? && Next(s, op.tail).None? {
      LinkKeepsInv(s, u);
    } else {
      EnqLocalKeepsInv(s, u);
    }
  }

  lemma DeqKeepsInv(s: State, u: Turn)
    requires Inv(s) && Pc(s, u.t).Deq?
    ensures Inv(Step(s, u))
  {
    hide Inv, Step;
    var op := Pc(s, u.t).dop;
    if op.HelpD? {
      if s.q.tail == op.tail && !u.spurious { SwingKeepsInv(s, u); } else { MissedSwingKeepsInv(s, u); }
    } else if Takes(s, Pc(s, u.t)) {
      TakeKeepsInv(s, u);
    } else {
      DeqLocalKeepsInv(s, u);
    }
  }

  lemma StepKeepsInv(s: State, u: Turn)
    requires Inv(s)
    ensures Inv(Step(s, u))
  {
    hide Inv, Step;
    match Pc(s, u.t)
    case Enq(_, _) => EnqKeepsInv(s, u);
    case Deq(_) => DeqKeepsInv(s, u);
    case Alloc(_) => AllocKeepsInv(s, u);
    case Retire(op) =>
      if op.Push? { PushKeepsInv(s, u); } else if op.Drop? { DropKeepsInv(s, u); } else { ScanLocalKeepsInv(s, u); }
    case _ => RegisterKeepsInv(s, u);
  }

  function Run(schedule: seq<Turn>): State {
    if schedule == [] then INIT
    else Step(Run(schedule[..|schedule| - 1]), schedule[|schedule| - 1])
  }

  lemma {:induction false} RunKeepsInv(schedule: seq<Turn>)
    ensures Inv(Run(schedule))
  {
    if schedule != [] {
      var before := schedule[..|schedule| - 1];
      RunKeepsInv(before);
      hide Inv, Step;
      StepKeepsInv(Run(before), schedule[|schedule| - 1]);
    }
  }

  // ---------------------------------------------------------------- hazard-pointer safety

  /** The node whose memory the next instruction of a thread reads or writes through a pointer it loaded. */
  function Dereferences(pc: PC): Option<Node> {
    match pc
    case Enq(_, op) => if op.LoadNext? || op.CasNext? then Some(op.tail) else None
    case Deq(op) => if op.LoadNextD? then Some(op.head) else if op.Read? then Some(op.next) else None
    case _ => None
  }

  /** Over whole runs no thread dereferences a node that some scan has reclaimed. */
  lemma NoUseAfterReclaim(schedule: seq<Turn>, t: Thread, n: Node)
    requires Dereferences(Pc(Run(schedule), t)) == Some(n)
    ensures FateOf(Run(schedule), n) != Some(Dropped)
  {
    RunKeepsInv(schedule);
    assert SafeOk(Run(schedule), t, n);
    hide Run;
  }

  /** The node has been put into a retire list, and is there or was dropped from it. */
  predicate Retired(s: State, n: Node) { FateOf(s, n).Some? && !FateOf(s, n).value.InHand? }

  /** How often node `n` is retired in a run. */
  function Retirements(schedule: seq<Turn>, n: Node): nat {
    if schedule == [] then 0
    else
      var before := schedule[..|schedule| - 1];
      Retirements(before, n) + if Pc(Run(before), schedule[|schedule| - 1].t) == Retire(Push(n)) then 1 else 0
  }

  /** A node is retired by the step that appends it to a retire list, and stays retired. */
  lemma StepRetires(s: State, u: Turn, n: Node)
    requires Inv(s)
    ensures Retired(Step(s, u), n) <==> Retired(s, n) || Pc(s, u.t) == Retire(Push(n))
    ensures Pc(s, u.t) == Retire(Push(n)) ==> !Retired(s, n)
  {
    assert FateOk(s, n, u.t) && EndsOk(s) && LogAt(s, s.g.hi);
    hide Inv, Kept;
    match Pc(s, u.t)
    case Enq(_, _) => return;
    case Deq(_) => return;
    case Retire(_) => return;
    case _ => return;
  }

  /** A node is retired once over a whole run if it is in a retire list or was dropped from one, else never. */
  lemma {:induction false} RetiredOnce(schedule: seq<Turn>, n: Node)
    ensures Retirements(schedule, n) == if Retired(Run(schedule), n) then 1 else 0
  {
    if schedule != [] {
      var before := schedule[..|schedule| - 1];
      RetiredOnce(before, n);
      RunKeepsInv(before);
      hide Inv, Step, Retired;
      StepRetires(Run(before), schedule[|schedule| - 1], n);
    }
  }

  /** A node in a retire list is there once, in no other list, and was before head in the queue. */
  lemma ListedOnce(schedule: seq<Turn>, n: Node, t: Thread, u: Thread, i: nat, j: nat)
    requires i < |Th(Run(schedule), t).rlist| && Th(Run(schedule), t).rlist[i] == n
    requires j < |Th(Run(schedule), u).rlist| && Th(Run(schedule), u).rlist[j] == n
    ensures t == u && i == j
    ensures var s := Run(schedule); Pos(s, n) < s.g.hi <= |s.g.log| && s.g.log[Pos(s, n)] == n
  {
    var s := Run(schedule);
    RunKeepsInv(schedule);
    assert FateOk(s, n, t) && FateOk(s, n, u) && RecordOk(s, t) && NodeOk(s, n) && EndsOk(s);
    hide Run, Inv;
  }

  /** Head never passes tail and tail lags the last linked node by at most one, over whole runs. */
  lemma EndsInOrder(schedule: seq<Turn>)
    ensures var s := Run(schedule);
            && s.g.hi <= s.g.ti < |s.g.log| <= s.g.ti + 2
            && s.q.head == s.g.log[s.g.hi] && s.q.tail == s.g.log[s.g.ti]
  {
    RunKeepsInv(schedule);
    assert EndsOk(Run(schedule));
  }

  // ---------------------------------------------------------------- refinement of an atomic FIFO queue

  datatype Event =
    | Silent
    | Offer(t: Thread, v: Value)           // enqueue(v) has been called
    | Link(t: Thread, v: Value)            // enqueue(v) takes effect
    | Take(t: Thread, v: Value)            // a dequeue takes effect, removing v
    | SawEmpty(t: Thread)                  // a dequeue takes effect on an empty queue
    | Return(t: Thread, r: Option<Value>)  // a dequeue has its result

  /** The atomic queue, with the pending arguments of enqueues and the pending results of dequeues. */
  datatype Fifo = Fifo(items: seq<Value>, offered: map<Thread, Value>, result: map<Thread, Option<Value>>)

  function Accept(l: Fifo, e: Event): Option<Fifo> {
    match e
    case Silent => Some(l)
    case Offer(t, v) => if t in l.offered then None else Some(l.(offered := l.offered[t := v]))
    case Link(t, v) =>
      if t in l.offered && l.offered[t] == v then Some(l.(items := l.items + [v], offered := l.offered - {t})) else None
    case Take(t, v) =>
      if t !in l.result && l.items != [] && l.items[0] == v
      then Some(l.(items := l.items[1..], result := l.result[t := Some(v)])) else None
    case SawEmpty(t) =>
      if t !in l.result && l.items == [] then Some(l.(result := l.result[t := None])) else None
    case Return(t, r) => if t in l.result && l.result[t] == r then Some(l.(result := l.result - {t})) else None
  }

  function EventOf(s: State, u: Turn): Event {
    match Pc(s, u.t)
    case Alloc(v) => Offer(u.t, v)
    case Enq(n, CasNext(tl)) => if Next(s, tl).None? then Link(u.t, Data(s, n)) else Silent
    case Deq(LoadNextD(h, tl)) => if Next(s, h).None? then SawEmpty(u.t) else Silent
    case Deq(PublishNext(h, tl, nx)) => if h == tl && nx.None? then Return(u.t, None) else Silent
    case Deq(CasHead(h, nx)) => if Takes(s, Pc(s, u.t)) then Take(u.t, Data(s, nx.value)) else Silent
    case Deq(Read(_, x)) => Return(u.t, Some(Data(s, x)))
    case _ => Silent
  }

  function Values(s: State, ns: seq<Node>): (vs: seq<Value>)
    ensures |vs| == |ns| && forall k :: 0 <= k < |ns| ==> vs[k] == Data(s, ns[k])
  {
    seq(|ns|, k requires 0 <= k < |ns| => Data(s, ns[k]))
  }

  /** The values between head and the end of the chain. */
  function Items(s: State): seq<Value> {
    if s.g.hi < |s.g.log| then Values(s, s.g.log[s.g.hi + 1..]) else []
  }

  function Offered(s: State, t: Thread): Option<Value> {
    if Private(Pc(s, t)).Some? then Some(Data(s, Private(Pc(s, t)).value)) else None
  }

  function Result(s: State, t: Thread): Option<Option<Value>> {
    match Pc(s, t)
    case Deq(PublishNext(_, _, nx)) => if nx.None? then Some(None) else None
    case Deq(Read(_, x)) => Some(Some(Data(s, x)))
    case _ => None
  }

  ghost predicate Matches(l: Fifo, s: State) {
    && l.items == Items(s)
    && (forall t: Thread ::
          (t in l.offered <==> Offered(s, t).Some?) && (t in l.offered ==> Some(l.offered[t]) == Offered(s, t)))
    && (forall t: Thread ::
          (t in l.result <==> Result(s, t).Some?) && (t in l.result ==> Some(l.result[t]) == Result(s, t)))
  }

  /** The effect of an event on the chain behind head and on the stepping thread's pending values. */
  predicate ItemsObserved(s: State, s': State, e: Event) {
    match e
    case Link(_, v) => Items(s') == Items(s) + [v]
    case Take(_, v) => Items(s) != [] && Items(s)[0] == v && Items(s') == Items(s)[1..]
    case SawEmpty(_) => Items(s) == [] && Items(s') == Items(s)
    case _ => Items(s') == Items(s)
  }

  predicate OwnObserved(s: State, s': State, t: Thread, e: Event) {
    match e
    case Silent => Offered(s', t) == Offered(s, t) && Result(s', t) == Result(s, t)
    case Offer(x, v) => x == t && Offered(s, t).None? && Offered(s', t) == Some(v) && Result(s', t) == Result(s, t)
    case Link(x, v) => x == t && Offered(s, t) == Some(v) && Offered(s', t).None? && Result(s', t) == Result(s, t)
    case Take(x, v) => x == t && Result(s, t).None? && Result(s', t) == Some(Some(v)) && Offered(s', t) == Offered(s, t)
    case SawEmpty(x) => x == t && Result(s, t).None? && Result(s', t) == Some(None) && Offered(s', t) == Offered(s, t)
    case Return(x, r) => x == t && Result(s, t) == Some(r) && Result(s', t).None? && Offered(s', t) == Offered(s, t)
  }

  ghost predicate OthersObserved(s: State, s': State, t: Thread) {
    forall v: Thread :: v != t ==> Offered(s', v) == Offered(s, v) && Result(s', v) == Result(s, v)
  }

  lemma OthersObserve(s: State, u: Turn, v: Thread)
    requires Inv(s) && v != u.t
    ensures Offered(Step(s, u), v) == Offered(s, v) && Result(Step(s, u), v) == Result(s, v)
  {
    var t := u.t;
    assert Th(Step(s, u), v) == Th(s, v) by { OthersUntouched(s, u, v); }
    assert ThreadOk(s, v) && NodeOk(s, s.q.unused);
    if Pc(s, t).Alloc? {
      assert Pc(s, v).Deq? && Pc(s, v).dop.Read? ==> NodeOk(s, Pc(s, v).dop.next);
    } else {
      SameData(s, u);
    }
    hide Inv, Step;
  }

  lemma OthersUntouched(s: State, u: Turn, v: Thread)
    requires v != u.t
    ensures Th(Step(s, u), v) == Th(s, v)
  {
    hide Kept;
    match Pc(s, u.t)
    case Enq(_, _) => return;
    case Deq(_) => return;
    case Retire(_) => return;
    case _ => return;
  }

  lemma SameData(s: State, u: Turn)
    requires !Pc(s, u.t).Alloc?
    ensures Step(s, u).q.data == s.q.data
  {
    hide Kept;
  }

  /** Steps that neither link nor take a node leave the chain behind head, and its data, alone. */
  lemma ItemsStay(s: State, s': State)
    requires Inv(s) && s'.g.log == s.g.log && s'.g.hi == s.g.hi
    requires forall n: Node :: n < s.q.unused ==> Data(s', n) == Data(s, n)
    ensures Items(s') == Items(s)
  {
    assert EndsOk(s);
    var ns := s.g.log[s.g.hi + 1..];
    forall k: nat | k < |ns| ensures Data(s', ns[k]) == Data(s, ns[k]) {
      assert LogAt(s, s.g.hi + 1 + k) && NodeOk(s, ns[k]);
    }
    assert Values(s', ns) == Values(s, ns);
  }

  lemma SameLog(s: State, u: Turn)
    requires EventOf(s, u).Silent? || EventOf(s, u).Offer? || EventOf(s, u).SawEmpty? || EventOf(s, u).Return?
    ensures Step(s, u).g.log == s.g.log && Step(s, u).g.hi == s.g.hi
  {
    hide Kept;
  }

  lemma LinkAppends(s: State, u: Turn)
    requires Inv(s) && EventOf(s, u).Link?
    ensures Items(Step(s, u)) == Items(s) + [EventOf(s, u).v]
  {
    var s', n := Step(s, u), Pc(s, u.t).node;
    assert EndsOk(s);
    LinkLog(s, u);
    assert s'.g.log[s'.g.hi + 1..] == s.g.log[s.g.hi + 1..] + [n] && s'.q.data == s.q.data;
    hide Inv, Step, LogOk;
    assert Items(s') == Items(s) + [Data(s, n)];
  }

  lemma TakeRemoves(s: State, u: Turn)
    requires Inv(s) && EventOf(s, u).Take?
    ensures Items(s) != [] && Items(s)[0] == EventOf(s, u).v && Items(Step(s, u)) == Items(s)[1..]
  {
    TakeLog(s, u);
    var s', x := Step(s, u), Pc(s, u.t).dop.link.value;
    assert EndsOk(s) && NodeOk(s, x);
    hide Inv, LogOk, NodeOk, EndsOk;
    assert s'.q.data == s.q.data && s'.g.log == s.g.log && s'.g.hi == s.g.hi + 1;
    hide Step;
    ItemsAfterTake(s, s', x);
  }

  lemma ItemsAfterTake(s: State, s': State, x: Node)
    requires s'.q.data == s.q.data && s'.g.log == s.g.log && s'.g.hi == s.g.hi + 1 < |s.g.log|
             && s.g.log[s.g.hi + 1] == x
    ensures Items(s) == [Data(s, x)] + Items(s')
  {
    assert s.g.log[s.g.hi + 1..] == [x] + s.g.log[s.g.hi + 2..];
  }

  /** A null link read behind a validated head means the queue is empty at that moment. */
  lemma EmptyIsEmpty(s: State, u: Turn)
    requires Inv(s) && EventOf(s, u).SawEmpty?
    ensures Items(s) == []
  {
    assert ThreadOk(s, u.t) && EndsOk(s) && NodeOk(s, Pc(s, u.t).dop.head);
  }

  lemma DequeueObserved(s: State, u: Turn)
    requires Inv(s) && Pc(s, u.t).Deq?
    ensures OwnObserved(s, Step(s, u), u.t, EventOf(s, u))
  {
    assert ThreadOk(s, u.t);
    hide Inv, EnqStep, RetireStep, Items;
    match Pc(s, u.t).dop
    case LoadNextD(_, _) => return;
    case PublishNext(_, _, _) => return;
    case CasHead(_, _) => return;
    case Read(_, _) => return;
    case _ => return;
  }

  lemma OwnObserve(s: State, u: Turn)
    requires Inv(s)
    ensures OwnObserved(s, Step(s, u), u.t, EventOf(s, u))
  {
    assert ThreadOk(s, u.t);
    match Pc(s, u.t)
    case Enq(_, _) => hide Inv, DeqStep, RetireStep; return;
    case Deq(_) => hide *; DequeueObserved(s, u); return;
    case Retire(_) => hide Inv, EnqStep, DeqStep, Kept; return;
    case _ => hide Inv, EnqStep, DeqStep, RetireStep; return;
  }

  lemma ItemsStep(s: State, u: Turn)
    requires Inv(s)
    ensures ItemsObserved(s, Step(s, u), EventOf(s, u))
  {
    var s' := Step(s, u);
    assert NodeOk(s, s.q.unused);
    if EventOf(s, u).Link? {
      LinkAppends(s, u);
    } else if EventOf(s, u).Take? {
      TakeRemoves(s, u);
    } else {
      if EventOf(s, u).SawEmpty? { EmptyIsEmpty(s, u); }
      SameLog(s, u);
      if !Pc(s, u.t).Alloc? { SameData(s, u); }
      assert forall n: Node :: n < s.q.unused ==> Data(s', n) == Data(s, n);
      ItemsStay(s, s');
    }
  }

  /** The atomic queue accepts an event with that effect and matches the new state. */
  lemma AcceptMatches(s: State, s': State, t: Thread, e: Event, l: Fifo) returns (l': Fifo)
    requires Matches(l, s) && ItemsObserved(s, s', e) && OwnObserved(s, s', t, e) && OthersObserved(s, s', t)
    ensures Accept(l, e) == Some(l') && Matches(l', s')
  {
    hide Items, Offered, Result;
    match e
    case Silent => return l;
    case Offer(_, v) => return l.(offered := l.offered[t := v]);
    case Link(_, v) => return l.(items := l.items + [v], offered := l.offered - {t});
    case Take(_, v) => return l.(items := l.items[1..], result := l.result[t := Some(v)]);
    case SawEmpty(_) => return l.(result := l.result[t := None]);
    case Return(_, _) => return l.(result := l.result - {t});
  }

  /** Each step performs exactly its event on the atomic queue, or nothing. */
  lemma StepRefines(s: State, u: Turn, l: Fifo) returns (l': Fifo)
    requires Inv(s) && Matches(l, s)
    ensures Accept(l, EventOf(s, u)) == Some(l') && Matches(l', Step(s, u))
  {
    hide Inv, Step, EventOf, Items, Offered, Result, Matches, Accept, ItemsObserved, OwnObserved;
    ItemsStep(s, u);
    OwnObserve(s, u);
    forall v: Thread | v != u.t
      ensures Offered(Step(s, u), v) == Offered(s, v) && Result(Step(s, u), v) == Result(s, v)
    {
      OthersObserve(s, u, v);
    }
    l' := AcceptMatches(s, Step(s, u), u.t, EventOf(s, u), l);
  }

  function Trace(schedule: seq<Turn>): seq<Event> {
    if schedule == [] then []
    else Trace(schedule[..|schedule| - 1]) + [EventOf(Run(schedule[..|schedule| - 1]), schedule[|schedule| - 1])]
  }

  function Replay(es: seq<Event>): Option<Fifo> {
    if es == [] then Some(Fifo([], map[], map[]))
    else
      match Replay(es[..|es| - 1])
      case None => None
      case Some(l) => Accept(l, es[|es| - 1])
  }

  lemma ReplayExtends(es: seq<Event>, e: Event)
    ensures Replay(es + [e]) == match Replay(es) case None => None case Some(l) => Accept(l, e)
  {
    assert (es + [e])[..|es|] == es;
  }

  /** Every interleaving of enqueues, dequeues and scans is a history of the atomic FIFO queue. */
  lemma {:induction false} RefinesFifo(schedule: seq<Turn>)
    ensures Replay(Trace(schedule)).Some? && Matches(Replay(Trace(schedule)).value, Run(schedule))
  {
    if schedule != [] {
      var before, u := schedule[..|schedule| - 1], schedule[|schedule| - 1];
      RefinesFifo(before);
      RunKeepsInv(before);
      hide Inv, Step, EventOf, Accept, Matches;
      var l' := StepRefines(Run(before), u, Replay(Trace(before)).value);
      ReplayExtends(Trace(before), EventOf(Run(before), u));
    } else {
      assert Items(INIT) == [];
    }
  }

  function LinkOrder(es: seq<Event>): seq<Value> {
    if es == [] then [] else
    var e := es[|es| - 1];
    LinkOrder(es[..|es| - 1]) + (if e.Link? then [e.v] else [])
  }

  function Taken(es: seq<Event>): seq<Value> {
    if es == [] then [] else
    var e := es[|es| - 1];
    Taken(es[..|es| - 1]) + (if e.Take? then [e.v] else [])
  }

  /** What being a history of the atomic queue means: what was taken, then what remains, is what was linked. */
  lemma {:induction false} FifoHistories(es: seq<Event>)
    requires Replay(es).Some?
    ensures LinkOrder(es) == Taken(es) + Replay(es).value.items
  {
    if es != [] { FifoHistories(es[..|es| - 1]); }
  }

  /** Under every interleaving the values dequeued are a prefix of the values enqueued, in linking
      order; none is lost or delivered twice. */
  lemma DequeuesInLinkOrder(schedule: seq<Turn>)
    ensures LinkOrder(Trace(schedule)) == Taken(Trace(schedule)) + Items(Run(schedule))
  {
    RefinesFifo(schedule);
    FifoHistories(Trace(schedule));
    hide Trace, Run, Replay;
  }

  // ---------------------------------------------------------------- bounded retire lists

  /** With N records in the hazard list: outside a scan a retire list has at most 2 * N entries, and a
      scan has collected at most two hazards for each record it has read. */
  predicate BoundOk(s: State, t: Thread) {
    && |Th(s, t).rlist| <= 2 * s.count + 1
    && (match Pc(s, t)
        case Retire(Check) => true
        case Retire(LoadList) => true
        case Retire(Scan0(todo, plist)) => |plist| + 2 * |todo| <= 2 * s.count
        case Retire(Scan1(todo, plist)) => |plist| + 2 * |todo| <= 2 * s.count + (if todo == [] then 0 else 1)
        case Retire(Drop(plist)) => |plist| <= 2 * s.count
        case _ => |Th(s, t).rlist| <= 2 * s.count)
  }

  ghost predicate RecordsCounted(s: State) { s.count == |s.g.announced| && NoDuplicates(s.records) }

  lemma {:induction false} NoMoreThanSet(xs: seq<Thread>, ys: set<Thread>)
    requires NoDuplicates(xs) && forall x :: x in xs ==> x in ys
    ensures |xs| <= |ys|
  {
    if xs != [] {
      var x := xs[0];
      assert x !in xs[1..];
      NoMoreThanSet(xs[1..], ys - {x});
    }
  }

  /** zm_hplist_length is never less than the number of records in the hazard list. */
  lemma RecordsBelowCount(s: State)
    requires Inv(s) && RecordsCounted(s)
    ensures |s.records| <= s.count
  {
    forall t: Thread | t in s.records ensures t in s.g.announced { assert RecordOk(s, t); }
    NoMoreThanSet(s.records, s.g.announced);
  }

  lemma StepCounted(s: State, u: Turn)
    requires Inv(s) && RecordsCounted(s)
    ensures RecordsCounted(Step(s, u)) && s.count <= Step(s, u).count
  {
    assert RecordOk(s, u.t);
    hide Inv, Kept;
    if Pc(s, u.t).Reg? { hide EnqStep, DeqStep, RetireStep; return; }
    RecordsStay(s, u);
    hide Step;
  }

  /** Only registration touches the hazard list. */
  lemma RecordsStay(s: State, u: Turn)
    requires !Pc(s, u.t).Reg?
    ensures var s' := Step(s, u);
            s'.records == s.records && s'.count == s.count && s'.g.announced == s.g.announced
  {
    hide Kept;
    match Pc(s, u.t)
    case Enq(_, _) => return;
    case Deq(_) => return;
    case Retire(_) => return;
    case _ => return;
  }

  lemma StepBounded(s: State, u: Turn, v: Thread)
    requires Inv(s) && RecordsCounted(s) && BoundOk(s, v)
    ensures BoundOk(Step(s, u), v)
  {
    StepCounted(s, u);
    hide Inv, Step;
    if v != u.t { OthersUntouched(s, u, v); } else { OwnBounded(s, u); }
  }

  lemma OwnBounded(s: State, u: Turn)
    requires Inv(s) && RecordsCounted(s) && BoundOk(s, u.t)
    ensures BoundOk(Step(s, u), u.t)
  {
    var v := u.t;
    StepCounted(s, u);
    RecordsBelowCount(s);
    assert RecordOk(s, v);
    if Pc(s, v).Retire? && Pc(s, v).rop.Drop? { KeptMembers(Th(s, v).rlist, Pc(s, v).rop.plist); }
    hide Inv, Kept, EnqStep, DeqStep;
    match Pc(s, v)
    case Retire(op) => hide RegStep; return;
    case Enq(n, op) => OwnListStays(s, u); hide Step; return;
    case Deq(op) => OwnListStays(s, u); hide Step; return;
    case _ => hide RetireStep; return;
  }

  lemma OwnListStays(s: State, u: Turn)
    requires Pc(s, u.t).Enq? || Pc(s, u.t).Deq?
    ensures Th(Step(s, u), u.t).rlist == Th(s, u.t).rlist
    ensures Pc(Step(s, u), u.t).Retire? ==> Pc(Step(s, u), u.t).rop.Push?
  {
    hide Kept, RetireStep, RegStep;
    if Pc(s, u.t).Enq? { hide *; EnqListStays(s, u); return; }
    hide EnqStep;
  }

  lemma EnqListStays(s: State, u: Turn)
    requires Pc(s, u.t).Enq?
    ensures Th(Step(s, u), u.t).rlist == Th(s, u.t).rlist && !Pc(Step(s, u), u.t).Retire?
  {
    hide RetireStep, RegStep, DeqStep;
  }

  /** Over whole runs a retire list never exceeds 2 * N + 1 entries, nor 2 * N once the retire is over,
      where N is zm_hplist_length. */
  lemma {:induction false} RetireListBound(schedule: seq<Turn>, t: Thread)
    ensures RecordsCounted(Run(schedule)) && BoundOk(Run(schedule), t)
    ensures |Th(Run(schedule), t).rlist| <= 2 * Run(schedule).count + 1
    ensures !Pc(Run(schedule), t).Retire? ==> |Th(Run(schedule), t).rlist| <= 2 * Run(schedule).count
  {
    if schedule != [] {
      var before := schedule[..|schedule| - 1];
      RetireListBound(before, t);
      RunKeepsInv(before);
      hide Inv, Step;
      StepCounted(Run(before), schedule[|schedule| - 1]);
      StepBounded(Run(before), schedule[|schedule| - 1], t);
    }
  }

  // ---------------------------------------------------------------- the queue as an object

  class Queue {
    var head: Node
    var tail: Node
    var next: map<Node, Option<Node>>
    var data: map<Node, Value>
    var unused: nat
    var records: seq<Thread>
    var count: nat
    var th: map<Thread, Local>
    ghost var history: History

    ghost function Snapshot(): State
      reads this
    {
      State(Shared(head, tail, next, data, unused), records, count, th, history)
    }

    ghost predicate Valid() reads this { Inv(Snapshot()) }

    constructor ()
      ensures Valid() && Snapshot() == INIT
    {
      head, tail, next, data, unused := 0, 0, map[], map[], 1;
      records, count, th := [], 0, map[];
      history := INIT.g;
    }

    method Put(t: Thread, l: Local)
      modifies this`th
      ensures th == old(th)[t := l]
    {
      th := th[t := l];
    }

    method Goto(t: Thread, pc: PC)
      modifies this`th
      ensures th == old(th)[t := At(old(th), t, FRESH).(pc := pc)]
    {
      th := th[t := At(th, t, FRESH).(pc := pc)];
    }

    /** Weak CAS on q->tail. */
    method CasTail(seen: Node, to: Node, spurious: bool)
      modifies this`tail, this`history
      ensures tail == (if old(tail) == seen && !spurious then to else old(tail))
      ensures history ==
              (if old(tail) == seen && !spurious then old(history).(ti := old(history.ti) + 1) else old(history))
    {
      if tail == seen && !spurious {
        tail := to;
        history := history.(ti := history.ti + 1);
      }
    }

    /** The call itself, and the next instruction of zm_hzdptr_get and zm_hzdptr_allocate. */
    method Register(u: Turn)
      requires Valid() && (Pc(Snapshot(), u.t).Idle? || Pc(Snapshot(), u.t).Reg?)
      modifies this
      ensures Valid() && Snapshot() == Step(old(Snapshot()), u)
    {
      StepKeepsInv(Snapshot(), u);
      hide Inv, EnqStep, DeqStep, RetireStep;
      var t, l := u.t, At(th, u.t, FRESH);
      if l.pc.Idle? {
        Goto(t, Reg(u.op, Get));
      } else {
        var op := l.pc.op;
        match l.pc.gop
        case Get => Goto(t, if l.mine then Begin(op) else Reg(op, LoadRecords));
        case LoadRecords => Goto(t, Reg(op, if records == [] then RegOp.Count else TestFlag(records)));
        case TestFlag(todo) => Goto(t, Reg(op, NextRecord(todo)));
        case NextRecord(todo) => Goto(t, Reg(op, if |todo| <= 1 then RegOp.Count else TestFlag(todo[1..])));
        case Count =>
          count := count + 1;
          history := history.(announced := history.announced + {t});
          Goto(t, Reg(op, LoadFirst));
        case LoadFirst => Goto(t, Reg(op, AddRecord(First(records))));
        case AddRecord(seen) =>
          if First(records) == seen && !u.spurious {
            records := [t] + records;
            Put(t, l.(mine := true, slot0 := u.junk0, slot1 := u.junk1, pc := Reg(op, Clear0)));
          } else {
            Goto(t, Reg(op, LoadFirst));
          }
        case Clear0 => Put(t, l.(slot0 := None, pc := Reg(op, Clear1)));
        case Clear1 => Put(t, l.(slot1 := None, pc := Begin(op)));
      }
    }

    /** The next instruction of the loop of zm_msqueue_enqueue. */
    method Enqueue(t: Thread, spurious: bool)
      requires Valid() && (Pc(Snapshot(), t).Enq? || Pc(Snapshot(), t).Alloc?)
      modifies this
      ensures Valid() && Snapshot() == Step(old(Snapshot()), Turn(t, Op.Dequeue, spurious, None, None))
    {
      StepKeepsInv(Snapshot(), Turn(t, Op.Dequeue, spurious, None, None));
      hide Inv, DeqStep, RetireStep;
      var l := At(th, t, FRESH);
      if l.pc.Alloc? {
        var n := unused;
        unused, data, next := n + 1, data[n := l.pc.v], next[n := None];
        Goto(t, Enq(n, LoadTail));
      } else {
        var n := l.pc.node;
        match l.pc.eop
        case LoadTail => Goto(t, Enq(n, Publish(tail)));
        case Publish(seen) => Put(t, l.(slot0 := Some(seen), pc := Enq(n, Validate(seen))));
        case Validate(seen) => Goto(t, Enq(n, if tail == seen then LoadNext(seen) else LoadTail));
        case LoadNext(seen) =>
          var link := At(next, seen, None);
          Goto(t, Enq(n, if link.None? then CasNext(seen) else Help(seen, link.value)));
        case CasNext(seen) =>
          if At(next, seen, None).None? {
            next := next[seen := Some(n)];
            history := history.(log := history.log + [n], pos := history.pos[n := |history.log|]);
            Goto(t, Enq(n, Swing(seen)));
          } else {
            Goto(t, Enq(n, LoadTail));
          }
        case Help(seen, link) =>
          CasTail(seen, link, spurious);
          Goto(t, Enq(n, LoadTail));
        case Swing(seen) =>
          CasTail(seen, n, spurious);
          Goto(t, Idle);
      }
    }

    /** The next instruction of the loop of zm_msqueue_dequeue, and the data once it is read. */
    method Dequeue(t: Thread, spurious: bool) returns (got: Option<Value>)
      requires Valid() && Pc(Snapshot(), t).Deq?
      modifies this
      ensures Valid() && Snapshot() == Step(old(Snapshot()), Turn(t, Op.Dequeue, spurious, None, None))
      ensures got.Some? <==> old(Pc(Snapshot(), t)).dop.Read?
      ensures got.Some? ==> Some(got) == old(Result(Snapshot(), t))
    {
      StepKeepsInv(Snapshot(), Turn(t, Op.Dequeue, spurious, None, None));
      hide Inv, EnqStep, RetireStep;
      got := None;
      var l := At(th, t, FRESH);
      match l.pc.dop
      case LoadHead => Goto(t, Deq(PublishHead(head)));
      case PublishHead(h) => Put(t, l.(slot0 := Some(h), pc := Deq(ValidateHead(h))));
      case ValidateHead(h) => Goto(t, Deq(if head == h then LoadTailD(h) else LoadHead));
      case LoadTailD(h) => Goto(t, Deq(LoadNextD(h, tail)));
      case LoadNextD(h, last) => Goto(t, Deq(PublishNext(h, last, At(next, h, None))));
      case PublishNext(h, last, link) =>
        var to :=
          if h != last then Deq(CasHead(h, link)) else if link.None? then Idle else Deq(HelpD(last, link.value));
        Put(t, l.(slot1 := link, pc := to));
      case HelpD(last, link) =>
        CasTail(last, link, spurious);
        Goto(t, Deq(LoadHead));
      case CasHead(h, link) =>
        if head == h && link.Some? {
          head := link.value;
          history := history.(hi := history.hi + 1, fate := history.fate[h := InHand(t)]);
          Goto(t, Deq(Read(h, link.value)));
        } else {
          Goto(t, Deq(LoadHead));
        }
      case Read(h, n) =>
        got := Some(At(data, n, 0));
        Goto(t, PC.Retire(Push(h)));
    }

    /** The next instruction of zm_hzdptr_retire and zm_hzdptr_scan. */
    method Retire(t: Thread)
      requires Valid() && Pc(Snapshot(), t).Retire?
      modifies this
      ensures Valid() && Snapshot() == Step(old(Snapshot()), Turn(t, Op.Dequeue, false, None, None))
    {
      StepKeepsInv(Snapshot(), Turn(t, Op.Dequeue, false, None, None));
      hide Inv, EnqStep, DeqStep, Kept;
      var l := At(th, t, FRESH);
      match l.pc.rop
      case Push(n) =>
        history := history.(fate := history.fate[n := Listed(t)]);
        Put(t, l.(rlist := l.rlist + [n], pc := PC.Retire(Check)));
      case Check => Goto(t, if |l.rlist| >= 2 * count then PC.Retire(LoadList) else Idle);
      case LoadList => Goto(t, PC.Retire(if records == [] then Drop([]) else Scan0(records, [])));
      case Scan0(todo, plist) =>
        var to := if todo == [] then Drop(plist) else Scan1(todo, Collect(plist, At(th, todo[0], FRESH).slot0));
        Goto(t, PC.Retire(to));
      case Scan1(todo, plist) =>
        var more := if todo == [] then plist else Collect(plist, At(th, todo[0], FRESH).slot1);
        Goto(t, PC.Retire(if |todo| <= 1 then Drop(more) else Scan0(todo[1..], more)));
      case Drop(plist) =>
        var kept := Kept(l.rlist, plist);
        history := history.(fate := map n | n in history.fate ::
          if history.fate[n] == Listed(t) && n !in kept then Dropped else history.fate[n]);
        Put(t, l.(rlist := kept, pc := Idle));
    }
  }
}
