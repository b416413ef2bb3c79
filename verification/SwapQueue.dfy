/**
 The multi-producer single-consumer queue of zm_swpqueue.c, one shared memory access per step.  A
 producer swaps its node into the tail and only then links it, so the chain is broken for a while.
 Freed node addresses may be handed out again.
 */
module SwapQueue {
  import opened Cells

  type Thread = nat
  type Node = nat
  type Value = int

  datatype Producer =
    | Idle
    | Alloc(v: Value)                // node := malloc; node->data := v; node->next := NULL
    | SwapTail(node: Node)           // pred := SWAP(q->tail, node)
    | Link(pred: Node, node: Node)   // pred->next := node

  datatype Consumer =
    | Rest
    | LoadHead                       // head := q->head
    | CheckNext(head: Node)          // head->next != NULL ?
    | LoadNext(head: Node)           // next := head->next
    | StoreHead(head: Node, next: Node)  // q->head := next
    | ReadData(head: Node, next: Node)   // *data := next->data
    | Free(head: Node)
    | WeakHead                       // isempty_weak
    | WeakNext(head: Node)
    | StrongHead                     // isempty_strong
    | StrongTail(head: Node)
    | StrongNext(head: Node, tail: Node)

  datatype Call = Dequeue | IsEmptyWeak | IsEmptyStrong

  /**
   History variables: the nodes in tail-swap order, the position of the current head, the positions
   of the nodes from head on, the producer that still owes a node's link, the values in tail-swap
   order, the values delivered, and whether the queue was empty when isempty_strong loaded the tail.
   */
  datatype History = History(log: seq<Node>, hi: nat, pos: map<Node, nat>, debtor: map<Node, Thread>,
                             put: seq<Value>, got: seq<Value>, wasEmpty: bool)

  datatype State = State(head: Node, tail: Node, next: map<Node, Option<Node>>, data: map<Node, Value>, live: set<Node>,
                         pc: map<Thread, Producer>, cpc: Consumer, g: History)

  const INIT := State(0, 0, map[], map[], {0}, map[], Rest, History([0], 0, map[0 := 0], map[], [], [], false))

  function Next(s: State, n: Node): Option<Node> { At(s.next, n, None) }
  function Data(s: State, n: Node): Value { At(s.data, n, 0) }
  function Pc(s: State, t: Thread): Producer { At(s.pc, t, Idle) }
  function Goto(s: State, t: Thread, pc: Producer): State { s.(pc := s.pc[t := pc]) }

  /** The scheduler's choices: a producer with the value of its next call and the address malloc
      gives it, or the consumer with its next call. */
  datatype Turn = Produce(t: Thread, v: Value, addr: Node) | Consume(call: Call)

  function ProducerStep(s: State, t: Thread, v: Value, addr: Node): State {
    match Pc(s, t)
    case Idle => Goto(s, t, Alloc(v))
    case Alloc(x) =>
      if addr in s.live then s  // malloc never returns an address in use
      else Goto(s.(live := s.live + {addr}, data := s.data[addr := x], next := s.next[addr := None]), t, SwapTail(addr))
    case SwapTail(n) =>
      Goto(s.(tail := n,
              g := s.g.(log := s.g.log + [n], pos := s.g.pos[n := |s.g.log|], debtor := s.g.debtor[s.tail := t],
                        put := s.g.put + [Data(s, n)])),
           t, Link(s.tail, n))
    case Link(p, n) => Goto(s.(next := s.next[p := Some(n)], g := s.g.(debtor := s.g.debtor - {p})), t, Idle)
  }

  function ConsumerStep(s: State, call: Call): State {
    match s.cpc
    case Rest =>
      s.(cpc := match call case Dequeue => LoadHead case IsEmptyWeak => WeakHead case IsEmptyStrong => StrongHead)
    case LoadHead => s.(cpc := CheckNext(s.head))
    case CheckNext(h) => s.(cpc := if Next(s, h).None? then Rest else LoadNext(h))
    case LoadNext(h) => if Next(s, h).None? then s else s.(cpc := StoreHead(h, Next(s, h).value))
    case StoreHead(h, x) =>
      s.(head := x, cpc := ReadData(h, x), g := s.g.(hi := s.g.hi + 1, pos := s.g.pos - {h}))
    case ReadData(h, x) => s.(cpc := Free(h), g := s.g.(got := s.g.got + [Data(s, x)]))
    case Free(h) => s.(cpc := Rest, live := s.live - {h})
    case WeakHead => s.(cpc := WeakNext(s.head))
    case WeakNext(_) => s.(cpc := Rest)
    case StrongHead => s.(cpc := StrongTail(s.head))
    case StrongTail(h) => s.(cpc := StrongNext(h, s.tail), g := s.g.(wasEmpty := |s.g.log| == s.g.hi + 1))
    case StrongNext(_, _) => s.(cpc := Rest)
  }

  /** What a test of emptiness answers with its last instruction. */
  function Answer(s: State): Option<bool> {
    match s.cpc
    case WeakNext(h) => Some(Next(s, h).None?)
    case StrongNext(h, tl) => Some(Next(s, h).None? && h == tl)
    case _ => None
  }

  function Step(s: State, u: Turn): State {
    match u
    case Produce(t, v, addr) => ProducerStep(s, t, v, addr)
    case Consume(call) => ConsumerStep(s, call)
  }

  // ---------------------------------------------------------------- invariant

  predicate InChain(s: State, n: Node) { n in s.g.pos }
  function Pos(s: State, n: Node): nat { At(s.g.pos, n, 0) }

  /** A node from head on: alive, in the log, and linked to its follower unless one producer still owes the link. */
  predicate NodeOk(s: State, n: Node) {
    InChain(s, n) ==>
      && n in s.live && s.g.hi <= Pos(s, n) < |s.g.log| && s.g.log[Pos(s, n)] == n
      && (Pos(s, n) > 0 ==> Pos(s, n) <= |s.g.put| && Data(s, n) == s.g.put[Pos(s, n) - 1])
      && (if Pos(s, n) + 1 == |s.g.log| then Next(s, n).None? && n !in s.g.debtor
          else
            && (Next(s, n).None? <==> n in s.g.debtor)
            && (Next(s, n).Some? ==> Next(s, n) == Some(s.g.log[Pos(s, n) + 1])))
  }

  predicate LogAt(s: State, k: nat) {
    s.g.hi <= k < |s.g.log| ==> InChain(s, s.g.log[k]) && Pos(s, s.g.log[k]) == k
  }

  predicate EndsOk(s: State) {
    && s.g.hi < |s.g.log| && s.head == s.g.log[s.g.hi] && s.tail == s.g.log[|s.g.log| - 1]
    && |s.g.put| + 1 == |s.g.log|
    && (s.cpc.ReadData? ==> s.g.hi > 0)
    && s.g.got == s.g.put[..if s.cpc.ReadData? then s.g.hi - 1 else s.g.hi]
  }

  function Private(pc: Producer): Option<Node> { if pc.SwapTail? then Some(pc.node) else None }

  predicate ProducerOk(s: State, t: Thread) {
    match Pc(s, t)
    case SwapTail(n) => n in s.live && !InChain(s, n) && Next(s, n).None? && s.cpc != Free(n)
                        && !(s.cpc.ReadData? && s.cpc.head == n)
    case Link(p, n) => InChain(s, p) && InChain(s, n) && Pos(s, n) == Pos(s, p) + 1
    case _ => true
  }

  /** A missing link has exactly one producer about to write it. */
  predicate DebtOk(s: State, p: Node, t: Thread) {
    (p in s.g.debtor && s.g.debtor[p] == t <==> Pc(s, t).Link? && Pc(s, t).pred == p)
  }

  predicate ConsumerOk(s: State) {
    match s.cpc
    case CheckNext(h) => h == s.head
    case LoadNext(h) => h == s.head && Next(s, h).Some?
    case StoreHead(h, x) => h == s.head && Next(s, h) == Some(x)
    case ReadData(h, x) => x == s.head && h in s.live && !InChain(s, h)
    case Free(h) => h in s.live && !InChain(s, h)
    case WeakNext(h) => h == s.head
    case StrongTail(h) => h == s.head
    case StrongNext(h, tl) => h == s.head && (h == tl <==> s.g.wasEmpty)
    case _ => true
  }

  /** Two producers never work on the same private node. */
  predicate PrivateOk(s: State, t: Thread, u: Thread) {
    t != u && Private(Pc(s, t)).Some? ==> Private(Pc(s, t)) != Private(Pc(s, u))
  }

  ghost predicate Inv(s: State) {
    && EndsOk(s) && ConsumerOk(s)
    && (forall n: Node :: NodeOk(s, n))
    && (forall k: nat :: LogAt(s, k))
    && (forall t: Thread :: ProducerOk(s, t))
    && (forall p: Node, t: Thread :: DebtOk(s, p, t))
    && (forall t: Thread, u: Thread :: PrivateOk(s, t, u))
  }

  // ---------------------------------------------------------------- every instruction keeps the invariant

  lemma DebtorInChain(s: State, p: Node)
    requires Inv(s)
    ensures p in s.g.debtor ==> InChain(s, p)
  {
    if p in s.g.debtor { assert DebtOk(s, p, s.g.debtor[p]) && ProducerOk(s, s.g.debtor[p]); }
  }

  lemma SwapKeepsNode(s: State, t: Thread, v: Value, addr: Node, n: Node)
    requires Inv(s) && Pc(s, t).SwapTail?
    ensures NodeOk(ProducerStep(s, t, v, addr), n)
  {
    assert NodeOk(s, n) && ProducerOk(s, t) && EndsOk(s);
    assert LogAt(s, |s.g.log| - 1) && NodeOk(s, s.tail);
    DebtorInChain(s, Pc(s, t).node);
    hide Inv, LogAt;
  }

  lemma LinkKeepsNode(s: State, t: Thread, v: Value, addr: Node, n: Node)
    requires Inv(s) && Pc(s, t).Link?
    ensures NodeOk(ProducerStep(s, t, v, addr), n)
  {
    assert NodeOk(s, n) && ProducerOk(s, t) && DebtOk(s, n, t);
    assert NodeOk(s, Pc(s, t).node) && NodeOk(s, Pc(s, t).pred);
    hide Inv;
  }

  lemma ProducerKeepsNode(s: State, t: Thread, v: Value, addr: Node, n: Node)
    requires Inv(s)
    ensures NodeOk(ProducerStep(s, t, v, addr), n)
  {
    assert NodeOk(s, n);
    match Pc(s, t)
    case Idle => hide Inv, NodeOk; return;
    case Alloc(_) => hide Inv; return;
    case SwapTail(_) => hide Inv, NodeOk, ProducerStep; SwapKeepsNode(s, t, v, addr, n); return;
    case Link(_, _) => hide Inv, NodeOk, ProducerStep; LinkKeepsNode(s, t, v, addr, n); return;
  }

  lemma ProducerKeepsEnds(s: State, t: Thread, v: Value, addr: Node)
    requires Inv(s)
    ensures EndsOk(ProducerStep(s, t, v, addr)) && ConsumerOk(ProducerStep(s, t, v, addr))
  {
    assert ProducerOk(s, t) && LogAt(s, s.g.hi) && NodeOk(s, s.head) && EndsOk(s) && ConsumerOk(s);
    if Pc(s, t).Link? { assert DebtOk(s, s.head, t) && NodeOk(s, Pc(s, t).pred); }
    hide Inv;
    match Pc(s, t)
    case Idle => return;
    case Alloc(_) => return;
    case SwapTail(_) => return;
    case Link(_, _) => return;
  }

  lemma ProducerKeepsOthers(s: State, t: Thread, v: Value, addr: Node, u: Thread)
    requires Inv(s)
    ensures ProducerOk(ProducerStep(s, t, v, addr), u)
  {
    assert ProducerOk(s, t) && ProducerOk(s, u) && PrivateOk(s, t, u) && EndsOk(s) && LogAt(s, |s.g.log| - 1);
    assert ConsumerOk(s) && NodeOk(s, addr);
    if Pc(s, u).Link? { assert NodeOk(s, Pc(s, u).node) && NodeOk(s, Pc(s, u).pred); }
    hide Inv;
    match Pc(s, t)
    case Idle => return;
    case Alloc(_) => return;
    case SwapTail(_) => return;
    case Link(_, _) => return;
  }

  lemma ProducerKeepsDebt(s: State, t: Thread, v: Value, addr: Node, p: Node, u: Thread)
    requires Inv(s)
    ensures DebtOk(ProducerStep(s, t, v, addr), p, u)
  {
    assert DebtOk(s, p, u) && DebtOk(s, p, t) && NodeOk(s, s.tail) && EndsOk(s) && LogAt(s, |s.g.log| - 1);
    assert DebtOk(s, s.tail, u);
    hide Inv;
    match Pc(s, t)
    case Idle => return;
    case Alloc(_) => return;
    case SwapTail(_) => return;
    case Link(_, _) => return;
  }

  lemma ProducerKeepsLog(s: State, t: Thread, v: Value, addr: Node, k: nat)
    requires Inv(s)
    ensures LogAt(ProducerStep(s, t, v, addr), k)
  {
    assert LogAt(s, k) && EndsOk(s) && ProducerOk(s, t);
    hide Inv;
  }

  lemma ProducerKeepsPrivate(s: State, t: Thread, v: Value, addr: Node, u: Thread, w: Thread)
    requires Inv(s)
    ensures PrivateOk(ProducerStep(s, t, v, addr), u, w)
  {
    assert PrivateOk(s, u, w) && ProducerOk(s, u) && ProducerOk(s, w);
    hide Inv;
  }

  lemma ProducerKeepsInv(s: State, t: Thread, v: Value, addr: Node)
    requires Inv(s)
    ensures Inv(ProducerStep(s, t, v, addr))
  {
    var s' := ProducerStep(s, t, v, addr);
    ProducerKeepsEnds(s, t, v, addr);
    forall n: Node ensures NodeOk(s', n) { ProducerKeepsNode(s, t, v, addr, n); }
    forall k: nat ensures LogAt(s', k) { ProducerKeepsLog(s, t, v, addr, k); }
    forall u: Thread ensures ProducerOk(s', u) { ProducerKeepsOthers(s, t, v, addr, u); }
    forall p: Node, u: Thread ensures DebtOk(s', p, u) { ProducerKeepsDebt(s, t, v, addr, p, u); }
    forall u: Thread, w: Thread ensures PrivateOk(s', u, w) { ProducerKeepsPrivate(s, t, v, addr, u, w); }
    hide EndsOk, ConsumerOk, NodeOk, LogAt, ProducerOk, DebtOk, PrivateOk, ProducerStep;
  }

  lemma StoreHeadKeepsNode(s: State, call: Call, n: Node)
    requires Inv(s) && s.cpc.StoreHead?
    ensures NodeOk(ConsumerStep(s, call), n)
  {
    assert NodeOk(s, n) && s.cpc.head == s.head by { assert ConsumerOk(s); }
    assert s.head == s.g.log[s.g.hi] by { assert EndsOk(s); }
    hide Inv, EndsOk, ConsumerOk;
  }

  lemma ConsumerOnlyReads(s: State, call: Call)
    requires !s.cpc.StoreHead? && !s.cpc.Free?
    ensures var s' := ConsumerStep(s, call);
            && s'.live == s.live && s'.next == s.next && s'.data == s.data
            && s'.g.(got := [], wasEmpty := false) == s.g.(got := [], wasEmpty := false)
  {
  }

  lemma ConsumerKeepsNode(s: State, call: Call, n: Node)
    requires Inv(s)
    ensures NodeOk(ConsumerStep(s, call), n)
  {
    var s' := ConsumerStep(s, call);
    assert NodeOk(s, n) && ConsumerOk(s);
    hide Inv;
    match s.cpc
    case StoreHead(_, _) => hide NodeOk, ConsumerStep, ConsumerOk; StoreHeadKeepsNode(s, call, n); return;
    case Free(_) => return;
    case _ => hide ConsumerStep, ConsumerOk; ConsumerOnlyReads(s, call); return;
  }

  lemma ConsumerKeepsEnds(s: State, call: Call)
    requires Inv(s)
    ensures EndsOk(ConsumerStep(s, call))
  {
    assert EndsOk(s) && ConsumerOk(s) && LogAt(s, s.g.hi) && LogAt(s, s.g.hi + 1) && NodeOk(s, s.head);
    if s.cpc.ReadData? { assert NodeOk(s, s.cpc.next); }
    hide Inv;
    if !s.cpc.StoreHead? && !s.cpc.ReadData? { EndsStay(s, call); hide ConsumerStep; return; }
    match s.cpc
    case StoreHead(_, _) => return;
    case ReadData(_, _) => return;
  }

  lemma EndsStay(s: State, call: Call)
    requires !s.cpc.StoreHead? && !s.cpc.ReadData?
    ensures var s' := ConsumerStep(s, call);
            && s'.head == s.head && s'.tail == s.tail && s'.g.log == s.g.log && s'.g.hi == s.g.hi
            && s'.g.put == s.g.put && s'.g.got == s.g.got && !s'.cpc.ReadData?
  {
  }

  lemma ConsumerKeepsConsumer(s: State, call: Call)
    requires Inv(s)
    ensures ConsumerOk(ConsumerStep(s, call))
  {
    assert EndsOk(s) && ConsumerOk(s) && LogAt(s, s.g.hi) && LogAt(s, s.g.hi + 1);
    assert NodeOk(s, s.head) && LogAt(s, |s.g.log| - 1) && NodeOk(s, s.tail);
    hide Inv;
    match s.cpc
    case StoreHead(_, _) => return;
    case StrongTail(_) => return;
    case LoadNext(_) => return;
    case _ => return;
  }

  /** The node a producer is about to link, and its predecessor, stay in the chain when head moves on. */
  lemma StoreHeadKeepsProducers(s: State, call: Call, u: Thread)
    requires Inv(s) && s.cpc.StoreHead?
    ensures ProducerOk(ConsumerStep(s, call), u)
  {
    assert ProducerOk(s, u) && EndsOk(s) && ConsumerOk(s) && LogAt(s, s.g.hi) && NodeOk(s, s.head);
    if Pc(s, u).Link? {
      assert DebtOk(s, Pc(s, u).pred, u) && NodeOk(s, Pc(s, u).pred) && NodeOk(s, Pc(s, u).node);
    }
    hide Inv, LogAt;
  }

  lemma ConsumerKeepsProducers(s: State, call: Call, u: Thread)
    requires Inv(s)
    ensures ProducerOk(ConsumerStep(s, call), u)
  {
    assert ProducerOk(s, u);
    var s' := ConsumerStep(s, call);
    match s.cpc
    case StoreHead(_, _) => hide Inv, ConsumerStep, ProducerOk; StoreHeadKeepsProducers(s, call, u); return;
    case Free(_) => hide Inv; return;
    case ReadData(_, _) => hide Inv; return;
    case _ =>
      assert s'.live == s.live && s'.next == s.next && s'.pc == s.pc && s'.g.pos == s.g.pos;
      assert !s'.cpc.ReadData? && !s'.cpc.Free?;
      hide Inv, ConsumerStep;
  }

  lemma ConsumerKeepsLog(s: State, call: Call, k: nat)
    requires Inv(s)
    ensures LogAt(ConsumerStep(s, call), k)
  {
    assert LogAt(s, k) && LogAt(s, s.g.hi) && EndsOk(s) && ConsumerOk(s);
    hide Inv;
  }

  lemma ConsumerKeepsDebts(s: State, call: Call)
    requires Inv(s)
    ensures var s' := ConsumerStep(s, call);
            && (forall p: Node, u: Thread :: DebtOk(s', p, u)) && (forall u: Thread, w: Thread :: PrivateOk(s', u, w))
  {
    var s' := ConsumerStep(s, call);
    assert s'.pc == s.pc && s'.g.debtor == s.g.debtor;
    hide ConsumerStep, EndsOk, ConsumerOk, NodeOk, LogAt, ProducerOk;
    forall p: Node, u: Thread ensures DebtOk(s', p, u) { assert DebtOk(s, p, u); }
    forall u: Thread, w: Thread ensures PrivateOk(s', u, w) { assert PrivateOk(s, u, w); }
  }

  lemma ConsumerKeepsInv(s: State, call: Call)
    requires Inv(s)
    ensures Inv(ConsumerStep(s, call))
  {
    var s' := ConsumerStep(s, call);
    ConsumerKeepsDebts(s, call);
    hide EndsOk, ConsumerOk, NodeOk, LogAt, ProducerOk, DebtOk, PrivateOk, ConsumerStep;
    ConsumerKeepsEnds(s, call);
    ConsumerKeepsConsumer(s, call);
    forall n: Node ensures NodeOk(s', n) { ConsumerKeepsNode(s, call, n); }
    forall k: nat ensures LogAt(s', k) { ConsumerKeepsLog(s, call, k); }
    forall u: Thread ensures ProducerOk(s', u) { ConsumerKeepsProducers(s, call, u); }
  }

  // ---------------------------------------------------------------- every interleaving

  function Run(schedule: seq<Turn>): State {
    if schedule == [] then INIT
    else Step(Run(schedule[..|schedule| - 1]), schedule[|schedule| - 1])
  }

  lemma {:induction false} RunKeepsInv(schedule: seq<Turn>)
    ensures Inv(Run(schedule))
  {
    if schedule != [] {
      var before, u := schedule[..|schedule| - 1], schedule[|schedule| - 1];
      RunKeepsInv(before);
      hide Inv, ProducerStep, ConsumerStep;
      match u
      case Produce(t, v, addr) => ProducerKeepsInv(Run(before), t, v, addr);
      case Consume(call) => ConsumerKeepsInv(Run(before), call);
    }
  }

  /** What has been delivered is a prefix of what has been swapped in, in swap order. */
  lemma DeliversInSwapOrder(schedule: seq<Turn>)
    ensures Run(schedule).g.got <= Run(schedule).g.put
  {
    RunKeepsInv(schedule);
    assert EndsOk(Run(schedule));
  }

  /** Between calls nothing is lost: what was swapped in is what was delivered and, in order, what the
      nodes behind head hold. */
  lemma NothingLost(schedule: seq<Turn>, k: nat)
    requires !Run(schedule).cpc.ReadData?
    ensures var s := Run(schedule);
            && |s.g.put| == |s.g.got| + (|s.g.log| - 1 - s.g.hi)
            && (s.g.hi + 1 + k < |s.g.log| ==> Data(s, s.g.log[s.g.hi + 1 + k]) == s.g.put[|s.g.got| + k])
  {
    var s := Run(schedule);
    RunKeepsInv(schedule);
    hide Run;
    assert EndsOk(s) && LogAt(s, s.g.hi + 1 + k);
    if s.g.hi + 1 + k < |s.g.log| { assert NodeOk(s, s.g.log[s.g.hi + 1 + k]); }
  }

  /** The value a dequeue returns is the next one in swap order. */
  lemma DequeueReturnsNext(schedule: seq<Turn>)
    requires Run(schedule).cpc.ReadData?
    ensures var s := Run(schedule);
            |s.g.got| < |s.g.put| && Data(s, s.cpc.next) == s.g.put[|s.g.got|]
  {
    var s := Run(schedule);
    RunKeepsInv(schedule);
    hide Run;
    assert EndsOk(s) && ConsumerOk(s) && LogAt(s, s.g.hi) && NodeOk(s, s.head);
  }

  /** `t` is about to link the node at position `k` to its follower, and no other producer links it. */
  ghost predicate OnlyDebtor(s: State, k: nat, t: Thread)
    requires k + 1 < |s.g.log|
  {
    && Pc(s, t) == Link(s.g.log[k], s.g.log[k + 1])
    && (forall u: Thread :: Pc(s, u).Link? && Pc(s, u).pred == s.g.log[k] ==> u == t)
  }

  /** Each missing link has exactly one producer pending on it. */
  lemma OneDebtorPerGap(schedule: seq<Turn>, k: nat)
    requires var s := Run(schedule); s.g.hi <= k && k + 1 < |s.g.log| && Next(s, s.g.log[k]).None?
    ensures exists t: Thread :: OnlyDebtor(Run(schedule), k, t)
  {
    var s := Run(schedule);
    RunKeepsInv(schedule);
    hide Run;
    var p := s.g.log[k];
    assert EndsOk(s) && LogAt(s, k) && LogAt(s, k + 1) && NodeOk(s, p);
    var t := s.g.debtor[p];
    assert DebtOk(s, p, t) && ProducerOk(s, t) && NodeOk(s, Pc(s, t).node);
    forall u: Thread | Pc(s, u).Link? && Pc(s, u).pred == p ensures u == t { assert DebtOk(s, p, u); }
    assert OnlyDebtor(s, k, t);
  }

  /** The node whose memory a producer or the consumer accesses next. */
  function ProducerTouches(pc: Producer): Option<Node> {
    match pc case Link(p, _) => Some(p) case SwapTail(n) => Some(n) case _ => None
  }
  function ConsumerTouches(pc: Consumer): Option<Node> {
    match pc
    case CheckNext(h) => Some(h)
    case LoadNext(h) => Some(h)
    case ReadData(_, x) => Some(x)
    case Free(h) => Some(h)
    case WeakNext(h) => Some(h)
    case StrongNext(h, _) => Some(h)
    case _ => None
  }

  /** Although addresses are reused, nobody touches freed memory, and a node is freed once. */
  lemma NoUseAfterFree(schedule: seq<Turn>, t: Thread, n: Node)
    requires ProducerTouches(Pc(Run(schedule), t)) == Some(n) || ConsumerTouches(Run(schedule).cpc) == Some(n)
    ensures n in Run(schedule).live
  {
    var s := Run(schedule);
    RunKeepsInv(schedule);
    hide Run;
    assert ProducerOk(s, t) && ConsumerOk(s) && EndsOk(s) && LogAt(s, s.g.hi) && NodeOk(s, n);
  }

  /** A freed head is no producer's pending predecessor. */
  lemma FreedIsNotPending(schedule: seq<Turn>, t: Thread)
    requires Run(schedule).cpc.Free? && Pc(Run(schedule), t).Link?
    ensures Pc(Run(schedule), t).pred != Run(schedule).cpc.head && Pc(Run(schedule), t).node != Run(schedule).cpc.head
  {
    var s := Run(schedule);
    RunKeepsInv(schedule);
    hide Run;
    assert ProducerOk(s, t) && ConsumerOk(s);
  }

  /** The strong test finds head and tail equal exactly if the queue was empty when it loaded the tail; it
      answers true if the first link is missing besides. */
  lemma StrongTestIsSound(schedule: seq<Turn>)
    requires Run(schedule).cpc.StrongNext?
    ensures var s := Run(schedule); s.cpc.head == s.cpc.tail <==> s.g.wasEmpty
  {
    RunKeepsInv(schedule);
    assert ConsumerOk(Run(schedule));
  }

  /** The weak test, and a dequeue that finds nothing, answer by the link of the first node: it is
      missing exactly if the queue is empty or one producer is between its swap and its link there. */
  lemma WeakTestMeans(schedule: seq<Turn>)
    requires var c := Run(schedule).cpc; c.WeakNext? || c.CheckNext? || c.StrongNext?
    ensures var s := Run(schedule);
            Next(s, s.cpc.head).None? <==>
              (|s.g.log| == s.g.hi + 1 || exists t: Thread :: Pc(s, t).Link? && Pc(s, t).pred == s.head)
  {
    var s := Run(schedule);
    RunKeepsInv(schedule);
    hide Run;
    assert ConsumerOk(s) && EndsOk(s) && LogAt(s, s.g.hi) && NodeOk(s, s.head);
    if s.head in s.g.debtor { assert DebtOk(s, s.head, s.g.debtor[s.head]); }
    forall t: Thread | Pc(s, t).Link? && Pc(s, t).pred == s.head ensures s.head in s.g.debtor {
      assert DebtOk(s, s.head, t);
    }
  }

  // ---------------------------------------------------------------- the queue as an object

  /** The instructions of zm_swpqueue_dequeue. */
  predicate Dequeuing(pc: Consumer) {
    pc.LoadHead? || pc.CheckNext? || pc.LoadNext? || pc.StoreHead? || pc.ReadData? || pc.Free?
  }

  class Queue {
    var head: Node
    var tail: Node
    var next: map<Node, Option<Node>>
    var data: map<Node, Value>
    var live: set<Node>
    var pc: map<Thread, Producer>
    var cpc: Consumer
    ghost var history: History

    ghost function Snapshot(): State
      reads this
    {
      State(head, tail, next, data, live, pc, cpc, history)
    }

    ghost predicate Valid() reads this { Inv(Snapshot()) }

    constructor ()
      ensures Valid() && Snapshot() == INIT
    {
      head, tail, live := 0, 0, {0};
      next, data, pc, cpc := map[], map[], map[], Rest;
      history := INIT.g;
    }

    method Goto(t: Thread, to: Producer)
      modifies this`pc
      ensures pc == old(pc)[t := to]
    {
      pc := pc[t := to];
    }

    /** The next instruction of zm_swpqueue_enqueue. */
    method Enqueue(t: Thread, v: Value, addr: Node)
      requires Valid()
      modifies this
      ensures Valid() && Snapshot() == ProducerStep(old(Snapshot()), t, v, addr)
    {
      ProducerKeepsInv(Snapshot(), t, v, addr);
      hide Inv;
      match At(pc, t, Idle)
      case Idle => Goto(t, Alloc(v));
      case Alloc(x) =>
        if addr !in live {
          live, data, next := live + {addr}, data[addr := x], next[addr := None];
          Goto(t, SwapTail(addr));
        }
      case SwapTail(n) =>
        var pred := tail;
        tail := n;
        history := history.(log := history.log + [n], pos := history.pos[n := |history.log|],
                            debtor := history.debtor[pred := t], put := history.put + [At(data, n, 0)]);
        Goto(t, Link(pred, n));
      case Link(pred, n) =>
        next := next[pred := Some(n)];
        history := history.(debtor := history.debtor - {pred});
        Goto(t, Idle);
    }

    /** The next instruction of zm_swpqueue_dequeue; the data once it is read: the next value in
        tail-swap order. */
    method Dequeue() returns (got: Option<Value>)
      requires Valid() && (cpc.Rest? || Dequeuing(cpc))
      modifies this
      ensures Valid() && Snapshot() == ConsumerStep(old(Snapshot()), Call.Dequeue)
      ensures got.Some? <==> old(cpc).ReadData?
      ensures got.Some? ==> |old(history.got)| < |history.put| && got.value == history.put[|old(history.got)|]
    {
      ConsumerKeepsInv(Snapshot(), Call.Dequeue);
      assert EndsOk(ConsumerStep(Snapshot(), Call.Dequeue));
      hide Inv;
      got := None;
      match cpc
      case Rest => cpc := LoadHead;
      case LoadHead => cpc := CheckNext(head);
      case CheckNext(h) => cpc := if At(next, h, None).None? then Rest else LoadNext(h);
      case LoadNext(h) =>
        var n := At(next, h, None);
        if n.Some? { cpc := StoreHead(h, n.value); }
      case StoreHead(h, n) =>
        head, cpc := n, ReadData(h, n);
        history := history.(hi := history.hi + 1, pos := history.pos - {h});
      case ReadData(h, n) =>
        got := Some(At(data, n, 0));
        cpc := Free(h);
        history := history.(got := history.got + [got.value]);
      case Free(h) => cpc, live := Rest, live - {h};
    }

    /** The next instruction of zm_swpqueue_isempty_weak, and its answer at the last one: the queue is
        empty, or a producer still owes the first link. */
    method IsEmptyWeak() returns (empty: Option<bool>)
      requires Valid() && (cpc.Rest? || cpc.WeakHead? || cpc.WeakNext?)
      modifies this`cpc
      ensures Valid() && Snapshot() == ConsumerStep(old(Snapshot()), Call.IsEmptyWeak)
      ensures empty == Answer(old(Snapshot()))
      ensures empty.Some? ==> (empty.value <==> |history.log| == history.hi + 1 || head in history.debtor)
    {
      ConsumerKeepsInv(Snapshot(), Call.IsEmptyWeak);
      assert EndsOk(Snapshot()) && ConsumerOk(Snapshot()) && LogAt(Snapshot(), history.hi) && NodeOk(Snapshot(), head);
      hide Inv;
      empty := None;
      match cpc
      case Rest => cpc := WeakHead;
      case WeakHead => cpc := WeakNext(head);
      case WeakNext(h) =>
        empty := Some(At(next, h, None).None?);
        cpc := Rest;
    }

    /** The next instruction of zm_swpqueue_isempty_strong, and its answer at the last one: true
        exactly if the queue was empty when the tail was loaded and the first link is still missing. */
    method IsEmptyStrong() returns (empty: Option<bool>)
      requires Valid() && (cpc.Rest? || cpc.StrongHead? || cpc.StrongTail? || cpc.StrongNext?)
      modifies this
      ensures Valid() && Snapshot() == ConsumerStep(old(Snapshot()), Call.IsEmptyStrong)
      ensures empty == Answer(old(Snapshot()))
      ensures empty.Some? ==>
                (empty.value <==> history.wasEmpty && (|history.log| == history.hi + 1 || head in history.debtor))
    {
      ConsumerKeepsInv(Snapshot(), Call.IsEmptyStrong);
      assert ConsumerOk(Snapshot()) && EndsOk(Snapshot()) && LogAt(Snapshot(), history.hi) && NodeOk(Snapshot(), head);
      hide Inv;
      empty := None;
      match cpc
      case Rest => cpc := StrongHead;
      case StrongHead => cpc := StrongTail(head);
      case StrongTail(h) =>
        cpc := StrongNext(h, tail);
        history := history.(wasEmpty := |history.log| == history.hi + 1);
      case StrongNext(h, last) =>
        empty := Some(At(next, h, None).None? && h == last);
        cpc := Rest;
    }
  }
}
