/**
 The fetch-and-add queue of zm_faqueue.c, one shared memory access per step: any number of producers,
 one consumer.  A producer draws a ticket, walks (and where necessary extends) the chain of segments to
 its cell, and writes it.  An assertion that fails sends its thread to Abort.
 */
module FaQueue {
  import opened Cells

  type Thread = nat
  type Seg = nat
  type Value = int

  const SEG := 1024                       // ZM_MAX_FASEG_SIZE
  const ALPHA := 0xffff_ffff_ffff_ffff    // the content of a cell nobody has written

  datatype Cell = Cell(seg: Seg, index: nat)

  /** Everything a producer carries through its call: value, ticket, current segment, loop counter. */
  datatype Job = Job(v: Value, ticket: nat, cur: Seg, i: nat)

  datatype Producer =
    | Idle
    | TakeTicket(v: Value)           // cell_id := fetch_add(tail, 1)
    | LoadSeg(v: Value, ticket: nat) // cur_seg := q->seg_head; i := cur_seg->id
    | Walk(j: Job)                   // i < trg_seg ?
    | LoadNext(j: Job)               // next := seg->next
    | AllocSeg(j: Job)               // tmp_seg := zm_faseg_alloc(seg_id)
    | CasNext(j: Job, tmp: Seg)      // CAS(seg->next, NULL, tmp_seg)
    | Reload(j: Job)                 // next := seg->next
    | Write(j: Job)                  // cell->data := data
    | Abort

  datatype Consumer =
    | Rest
    | LoadNextSeg                    // next := seg_head->next, and branch
    | Advance(next: Seg)             // q->seg_head := next
    | ReadCell                       // seg_head->cells[cell_disp].data == ALPHA ?
    | ReadData                       // *data := cell data; q->head++
    | Stopped

  datatype Shared = Shared(head: nat, tail: nat, segHead: Seg, id: map<Seg, nat>, next: map<Seg, Option<Seg>>,
                           cell: map<Cell, Value>, unused: nat)

  /** History variables: the chain of segments, the value and the producer of each ticket, the values delivered. */
  datatype History = History(chain: seq<Seg>, put: seq<Value>, taker: seq<Thread>, got: seq<Value>)

  datatype State = State(q: Shared, pc: map<Thread, Producer>, c: Consumer, g: History)

  const INIT := State(Shared(0, 0, 0, map[], map[], map[], 1), map[], Rest, History([0], [], [], []))

  function Id(s: State, n: Seg): nat { At(s.q.id, n, 0) }
  function Next(s: State, n: Seg): Option<Seg> { At(s.q.next, n, None) }
  function Content(s: State, n: Seg, i: nat): Value { At(s.q.cell, Cell(n, i), ALPHA) }
  function Pc(s: State, t: Thread): Producer { At(s.pc, t, Idle) }
  function Goto(s: State, t: Thread, pc: Producer): State { s.(pc := s.pc[t := pc]) }

  function JobOf(pc: Producer): Job {
    match pc
    case Walk(j) => j
    case LoadNext(j) => j
    case AllocSeg(j) => j
    case CasNext(j, _) => j
    case Reload(j) => j
    case Write(j) => j
    case LoadSeg(v, k) => Job(v, k, 0, 0)
    case _ => Job(0, 0, 0, 0)
  }

  /** The segment and the slot of a ticket. */
  function SegOf(k: nat): nat { k / SEG }
  function SlotOf(k: nat): nat { k % SEG }

  datatype Turn = Produce(t: Thread, v: Value) | Consume

  function ProducerStep(s: State, t: Thread, v: Value): State {
    match Pc(s, t)
    case Idle => Goto(s, t, TakeTicket(v))
    case TakeTicket(x) =>
      Goto(s.(q := s.q.(tail := s.q.tail + 1), g := s.g.(put := s.g.put + [x], taker := s.g.taker + [t])),
           t, LoadSeg(x, s.q.tail))
    case LoadSeg(x, k) => Goto(s, t, Walk(Job(x, k, s.q.segHead, Id(s, s.q.segHead))))
    case Walk(j) =>
      if j.i < SegOf(j.ticket) then Goto(s, t, if Id(s, j.cur) == j.i then LoadNext(j) else Abort)
      else Goto(s, t, if Id(s, j.cur) == SegOf(j.ticket) then Write(j) else Abort)
    case LoadNext(j) =>
      if Next(s, j.cur).None? then Goto(s, t, AllocSeg(j)) else Arrive(s, t, j, Next(s, j.cur).value)
    case AllocSeg(j) =>
      var n := s.q.unused;
      Goto(s.(q := s.q.(unused := n + 1, id := s.q.id[n := j.i + 1], next := s.q.next[n := None])), t, CasNext(j, n))
    case CasNext(j, n) =>
      Goto(if Next(s, j.cur).None? then
             s.(q := s.q.(next := s.q.next[j.cur := Some(n)]), g := s.g.(chain := s.g.chain + [n]))
           else s, t, Reload(j))
    case Reload(j) =>
      if Next(s, j.cur).None? then Goto(s, t, Abort) else Arrive(s, t, j, Next(s, j.cur).value)
    case Write(j) =>
      Goto(s.(q := s.q.(cell := s.q.cell[Cell(j.cur, SlotOf(j.ticket)) := j.v])), t, Idle)
    case Abort => s
  }

  /** zm_faseg_advance returns `next`, which must carry the next id. */
  function Arrive(s: State, t: Thread, j: Job, next: Seg): State {
    Goto(s, t, if Id(s, next) == j.i + 1 then Walk(Job(j.v, j.ticket, next, j.i + 1)) else Abort)
  }

  function ConsumerStep(s: State): State {
    var h := s.q.segHead;
    match s.c
    case Rest => s.(c := LoadNextSeg)
    case LoadNextSeg =>
      s.(c := if SegOf(s.q.head) <= Id(s, h) then ReadCell
              else if Next(s, h).None? then Rest
              else if SegOf(s.q.head) == Id(s, h) + 1 then Advance(Next(s, h).value) else Stopped)
    case Advance(n) =>
      s.(q := s.q.(segHead := n), c := if SegOf(s.q.head) == Id(s, n) then ReadCell else Stopped)
    case ReadCell => s.(c := if Content(s, h, SlotOf(s.q.head)) == ALPHA then Rest else ReadData)
    case ReadData =>
      s.(q := s.q.(head := s.q.head + 1), c := Rest,
         g := s.g.(got := s.g.got + [Content(s, h, SlotOf(s.q.head))]))
    case Stopped => s
  }

  function Step(s: State, u: Turn): State {
    match u
    case Produce(t, v) => ProducerStep(s, t, v)
    case Consume => ConsumerStep(s)
  }

  // ---------------------------------------------------------------- invariant

  predicate InChain(s: State, n: Seg) { Id(s, n) < |s.g.chain| && s.g.chain[Id(s, n)] == n }

  predicate SegOk(s: State, n: Seg) {
    && (s.q.unused <= n ==> Next(s, n).None?)
    && (InChain(s, n) ==>
          n < s.q.unused && Next(s, n) == if Id(s, n) + 1 < |s.g.chain| then Some(s.g.chain[Id(s, n) + 1]) else None)
  }

  /** The segment at place `k` of the chain carries id `k`. */
  predicate ChainAt(s: State, k: nat) { k < |s.g.chain| ==> Id(s, s.g.chain[k]) == k }

  /** Segments outside the chain have no written cell. */
  predicate BlankOk(s: State, n: Seg, i: nat) { !InChain(s, n) ==> Content(s, n, i) == ALPHA }

  /** The producer of a ticket has not yet written its cell. */
  predicate Busy(s: State, t: Thread, k: nat) {
    match Pc(s, t)
    case LoadSeg(_, n) => n == k
    case Walk(j) => j.ticket == k
    case LoadNext(j) => j.ticket == k
    case AllocSeg(j) => j.ticket == k
    case CasNext(j, _) => j.ticket == k
    case Reload(j) => j.ticket == k
    case Write(j) => j.ticket == k
    case _ => false
  }

  /** What the cell of ticket `k` holds. */
  function CellOf(s: State, k: nat): Value {
    if SegOf(k) < |s.g.chain| then Content(s, s.g.chain[SegOf(k)], SlotOf(k)) else ALPHA
  }

  /** The cell of a ticket holds its value once its producer is done, and nothing before. */
  predicate TicketOk(s: State, k: nat) {
    && (k >= s.q.tail ==> CellOf(s, k) == ALPHA)
    && (k < s.q.tail ==>
          && k < |s.g.put| && k < |s.g.taker|
          && CellOf(s, k) == if Busy(s, s.g.taker[k], k) then ALPHA else s.g.put[k])
    && (k < s.q.head ==> CellOf(s, k) != ALPHA)
  }

  predicate EndsOk(s: State) {
    && |s.g.put| == s.q.tail == |s.g.taker|
    && s.q.head <= s.q.tail && s.g.got == s.g.put[..s.q.head] && s.g.chain != []
    && InChain(s, s.q.segHead) && Id(s, s.q.segHead) <= SegOf(s.q.head) <= Id(s, s.q.segHead) + 1
  }

  predicate JobOk(s: State, t: Thread, j: Job) {
    && j.ticket < s.q.tail && j.ticket < |s.g.taker| && s.g.taker[j.ticket] == t
    && j.ticket < |s.g.put| && s.g.put[j.ticket] == j.v
    && InChain(s, j.cur) && Id(s, j.cur) == j.i <= SegOf(j.ticket)
  }

  /** What a producer may rely on at each instruction. */
  predicate ProducerOk(s: State, t: Thread) {
    match Pc(s, t)
    case LoadSeg(v, k) =>
      k < s.q.tail && k < |s.g.taker| && s.g.taker[k] == t && k < |s.g.put| && s.g.put[k] == v
    case Walk(j) => JobOk(s, t, j)
    case LoadNext(j) => JobOk(s, t, j) && j.i < SegOf(j.ticket)
    case AllocSeg(j) => JobOk(s, t, j) && j.i < SegOf(j.ticket)
    case CasNext(j, n) =>
      JobOk(s, t, j) && j.i < SegOf(j.ticket)
      && n < s.q.unused && !InChain(s, n) && Id(s, n) == j.i + 1 && Next(s, n).None?
    case Reload(j) => JobOk(s, t, j) && j.i < SegOf(j.ticket) && Next(s, j.cur).Some?
    case Write(j) => JobOk(s, t, j) && j.i == SegOf(j.ticket)
    case Abort => false
    case _ => true
  }

  predicate ConsumerOk(s: State) {
    match s.c
    case Advance(n) => Next(s, s.q.segHead) == Some(n) && SegOf(s.q.head) == Id(s, s.q.segHead) + 1
    case ReadCell => SegOf(s.q.head) == Id(s, s.q.segHead)
    case ReadData => SegOf(s.q.head) == Id(s, s.q.segHead) && CellOf(s, s.q.head) != ALPHA
    case Stopped => false
    case _ => true
  }

  /** Two producers never offer the same segment. */
  predicate PrivateOk(s: State, t: Thread, u: Thread) {
    t != u && Pc(s, t).CasNext? && Pc(s, u).CasNext? ==> Pc(s, t).tmp != Pc(s, u).tmp
  }

  ghost predicate Inv(s: State) {
    && EndsOk(s) && ConsumerOk(s)
    && (forall n: Seg :: SegOk(s, n))
    && (forall k: nat :: ChainAt(s, k))
    && (forall n: Seg, i: nat :: BlankOk(s, n, i))
    && (forall k: nat :: TicketOk(s, k))
    && (forall t: Thread :: ProducerOk(s, t))
    && (forall t: Thread, u: Thread :: PrivateOk(s, t, u))
  }

  // ---------------------------------------------------------------- ticket arithmetic

  /** Distinct tickets have distinct cells. */
  lemma CellsAreDistinct(k: nat, n: nat)
    ensures SegOf(k) == SegOf(n) && SlotOf(k) == SlotOf(n) ==> k == n
  {
    assert k == SEG * SegOf(k) + SlotOf(k) && n == SEG * SegOf(n) + SlotOf(n);
  }

  lemma SegOfMonotone(k: nat, n: nat)
    requires k <= n
    ensures SegOf(k) <= SegOf(n)
  {
  }

  lemma SegOfSuccessor(k: nat)
    ensures SegOf(k) <= SegOf(k + 1) <= SegOf(k) + 1
  {
  }

  // ---------------------------------------------------------------- every instruction keeps the invariant

  lemma ChainIsAllocated(s: State, k: nat)
    requires Inv(s)
    ensures k < |s.g.chain| ==> s.g.chain[k] < s.q.unused
  {
    if k < |s.g.chain| { assert SegOk(s, s.g.chain[k]); }
    assert ChainAt(s, k);
  }

  /** A producer's instruction writes at most its own ticket's cell. */
  lemma CellAfterProducer(s: State, t: Thread, v: Value, k: nat)
    requires Inv(s)
    ensures CellOf(ProducerStep(s, t, v), k)
            == if Pc(s, t).Write? && Pc(s, t).j.ticket == k then Pc(s, t).j.v else CellOf(s, k)
  {
    assert ProducerOk(s, t) && EndsOk(s) && ChainAt(s, SegOf(k));
    if Pc(s, t).Write? { CellsAreDistinct(k, Pc(s, t).j.ticket); }
    if Pc(s, t).CasNext? { assert BlankOk(s, Pc(s, t).tmp, SlotOf(k)) && SegOk(s, Pc(s, t).j.cur); }
    hide Inv, SegOf, SlotOf;
    match Pc(s, t)
    case CasNext(_, _) => return;
    case Write(_) => return;
    case _ => return;
  }

  lemma CasKeepsSegs(s: State, t: Thread, v: Value, n: Seg)
    requires Inv(s) && Pc(s, t).CasNext?
    ensures SegOk(ProducerStep(s, t, v), n)
  {
    var cur, tmp := Pc(s, t).j.cur, Pc(s, t).tmp;
    assert ProducerOk(s, t) && SegOk(s, n) && SegOk(s, cur);
    hide Inv, SegOf, SlotOf;
    if Next(s, cur).None? {
      assert ProducerStep(s, t, v).g.chain[|s.g.chain|] == tmp;
    }
  }

  lemma ChainStays(s: State, t: Thread, v: Value)
    requires !Pc(s, t).CasNext? && !Pc(s, t).AllocSeg?
    ensures var s' := ProducerStep(s, t, v);
            s'.q.id == s.q.id && s'.q.next == s.q.next && s'.q.unused == s.q.unused && s'.g.chain == s.g.chain
  {
    hide SegOf, SlotOf;
  }

  lemma ProducerKeepsSegs(s: State, t: Thread, v: Value, n: Seg)
    requires Inv(s)
    ensures SegOk(ProducerStep(s, t, v), n)
  {
    assert SegOk(s, n);
    match Pc(s, t)
    case CasNext(_, _) => hide SegOk; CasKeepsSegs(s, t, v, n); return;
    case AllocSeg(j) => ChainIsAllocated(s, j.i + 1); hide Inv, SegOf, SlotOf; return;
    case _ => ChainStays(s, t, v); hide Inv, ProducerStep; return;
  }

  lemma ProducerKeepsChain(s: State, t: Thread, v: Value, k: nat)
    requires Inv(s)
    ensures ChainAt(ProducerStep(s, t, v), k)
  {
    assert ProducerOk(s, t) && EndsOk(s) && ChainAt(s, k);
    if k < |s.g.chain| { assert SegOk(s, s.g.chain[k]); }
    if Pc(s, t).CasNext? { assert SegOk(s, Pc(s, t).j.cur); }
    hide Inv, SegOf, SlotOf;
    match Pc(s, t)
    case CasNext(_, _) => return;
    case AllocSeg(_) => return;
    case _ => return;
  }

  lemma ProducerKeepsBlank(s: State, t: Thread, v: Value, n: Seg, i: nat)
    requires Inv(s)
    ensures BlankOk(ProducerStep(s, t, v), n, i)
  {
    assert ProducerOk(s, t) && EndsOk(s) && BlankOk(s, n, i);
    if Pc(s, t).AllocSeg? { assert SegOk(s, n); }
    if Pc(s, t).CasNext? { assert SegOk(s, Pc(s, t).j.cur); }
    hide Inv, SegOf, SlotOf;
    match Pc(s, t)
    case CasNext(_, _) => return;
    case AllocSeg(_) => return;
    case Write(_) => return;
    case _ => return;
  }

  /** Segments never leave the chain or change their id or link, and tickets never change hands. */
  lemma ProducerGrows(s: State, t: Thread, v: Value, n: Seg)
    requires Inv(s)
    ensures var s' := ProducerStep(s, t, v);
            && (InChain(s, n) ==> InChain(s', n) && Id(s', n) == Id(s, n))
            && (Next(s, n).Some? ==> Next(s', n) == Next(s, n))
            && s.q.unused <= s'.q.unused && s.q.tail <= s'.q.tail && s.g.put <= s'.g.put && s.g.taker <= s'.g.taker
  {
    assert ProducerOk(s, t) && EndsOk(s) && SegOk(s, n);
    hide Inv, SegOf, SlotOf;
    match Pc(s, t)
    case CasNext(_, _) => return;
    case AllocSeg(_) => return;
    case _ => return;
  }

  /** A producer does not write the consumer's words, and draws one ticket for one value. */
  lemma ConsumerWordsStay(s: State, t: Thread, v: Value)
    ensures var s' := ProducerStep(s, t, v);
            && s'.q.segHead == s.q.segHead && s'.q.head == s.q.head && s'.g.got == s.g.got && s'.c == s.c
            && s'.q.tail - s.q.tail == |s'.g.put| - |s.g.put| == |s'.g.taker| - |s.g.taker|
  {
    hide SegOf, SlotOf;
  }

  lemma ProducerKeepsEnds(s: State, t: Thread, v: Value)
    requires Inv(s)
    ensures EndsOk(ProducerStep(s, t, v))
  {
    assert EndsOk(s);
    ConsumerWordsStay(s, t, v);
    ProducerGrows(s, t, v, s.q.segHead);
    hide Inv, SegOf, ProducerStep;
  }

  lemma ProducerKeepsConsumer(s: State, t: Thread, v: Value)
    requires Inv(s)
    ensures ConsumerOk(ProducerStep(s, t, v))
  {
    assert EndsOk(s) && ConsumerOk(s) && TicketOk(s, s.q.head);
    ConsumerWordsStay(s, t, v);
    ProducerGrows(s, t, v, s.q.segHead);
    CellAfterProducer(s, t, v, s.q.head);
    if Pc(s, t).Write? {
      assert ProducerOk(s, t) && TicketOk(s, Pc(s, t).j.ticket);
      hide ProducerStep, Inv, SegOf, SlotOf, CellOf;
    } else {
      hide ProducerStep, Inv, SegOf, SlotOf, CellOf, ProducerOk, TicketOk;
    }
  }

  /** The place a producer reaches next is in the chain and carries the next id. */
  lemma NextInChain(s: State, n: Seg)
    requires Inv(s) && InChain(s, n) && Next(s, n).Some?
    ensures InChain(s, Next(s, n).value) && Id(s, Next(s, n).value) == Id(s, n) + 1
  {
    assert SegOk(s, n) && ChainAt(s, Id(s, n) + 1);
  }

  /** From the ticket to the segment the walk starts at. */
  lemma StartKeepsSelf(s: State, t: Thread, v: Value)
    requires Inv(s) && (Pc(s, t).Idle? || Pc(s, t).TakeTicket? || Pc(s, t).LoadSeg?)
    ensures ProducerOk(ProducerStep(s, t, v), t)
  {
    assert ProducerOk(s, t) && EndsOk(s);
    match Pc(s, t)
    case LoadSeg(x, k) =>
      assert TicketOk(s, k) && Busy(s, t, k);
      SegOfMonotone(s.q.head, k);
      return;
    case _ => hide Inv, SegOf; return;
  }

  /** A new segment is allocated, and linked in if nobody was faster. */
  lemma ExtendKeepsSelf(s: State, t: Thread, v: Value)
    requires Inv(s) && (Pc(s, t).AllocSeg? || Pc(s, t).CasNext?)
    ensures ProducerOk(ProducerStep(s, t, v), t)
  {
    assert ProducerOk(s, t) && EndsOk(s);
    match Pc(s, t)
    case AllocSeg(j) =>
      ChainIsAllocated(s, j.i + 1);
      assert SegOk(s, j.cur);
      hide Inv, SegOf;
      return;
    case CasNext(j, _) => assert SegOk(s, j.cur); hide Inv, SegOf; return;
  }

  lemma ProducerKeepsSelf(s: State, t: Thread, v: Value)
    requires Inv(s)
    ensures ProducerOk(ProducerStep(s, t, v), t)
  {
    assert ProducerOk(s, t);
    match Pc(s, t)
    case Idle => hide *; StartKeepsSelf(s, t, v); return;
    case TakeTicket(_) => hide *; StartKeepsSelf(s, t, v); return;
    case LoadSeg(_, _) => hide *; StartKeepsSelf(s, t, v); return;
    case AllocSeg(_) => hide *; ExtendKeepsSelf(s, t, v); return;
    case CasNext(_, _) => hide *; ExtendKeepsSelf(s, t, v); return;
    case LoadNext(j) => if Next(s, j.cur).Some? { NextInChain(s, j.cur); } hide Inv; return;
    case Reload(j) => NextInChain(s, j.cur); hide Inv; return;
    case _ => hide Inv; return;
  }

  /** A producer stays busy with its ticket until it has written the cell. */
  lemma BusyAfterProducer(s: State, t: Thread, v: Value, u: Thread, k: nat)
    requires Inv(s)
    ensures Busy(ProducerStep(s, t, v), u, k) <==>
              if u == t && Pc(s, t).TakeTicket? then k == s.q.tail
              else Busy(s, u, k) && !(u == t && Pc(s, t).Write?)
  {
    if u != t { OtherProducers(s, t, v, u); hide *; hide ProducerStep; return; }
    assert ProducerOk(s, t);
    ProducerKeepsSelf(s, t, v);
    hide Inv, SegOf, SlotOf, JobOk;
    match Pc(s, t)
    case LoadNext(_) => return;
    case Reload(_) => return;
    case Walk(_) => return;
    case _ => return;
  }

  lemma ProducerKeepsEntries(s: State, t: Thread, v: Value)
    requires !Pc(s, t).TakeTicket?
    ensures var s' := ProducerStep(s, t, v);
            s'.q.tail == s.q.tail && s'.q.head == s.q.head && s'.g.put == s.g.put && s'.g.taker == s.g.taker
  {
    hide SegOf, SlotOf;
  }

  lemma ProducerKeepsTicket(s: State, t: Thread, v: Value, k: nat)
    requires Inv(s)
    ensures TicketOk(ProducerStep(s, t, v), k)
  {
    var s' := ProducerStep(s, t, v);
    assert ProducerOk(s, t) && EndsOk(s) && TicketOk(s, k);
    CellAfterProducer(s, t, v, k);
    ProducerKeepsSelf(s, t, v);
    BusyAfterProducer(s, t, v, t, k);
    if k < s.q.tail { BusyAfterProducer(s, t, v, s.g.taker[k], k); }
    hide Inv, SegOf, SlotOf, CellOf, Busy;
    match Pc(s, t)
    case TakeTicket(_) => return;
    case Write(_) => return;
    case _ => ProducerKeepsEntries(s, t, v); hide ProducerStep, ProducerOk; return;
  }

  /** A segment another producer has allocated stays private to it. */
  lemma ProducerSpares(s: State, t: Thread, v: Value, u: Thread)
    requires Inv(s) && u != t && Pc(s, u).CasNext?
    ensures var n, s' := Pc(s, u).tmp, ProducerStep(s, t, v);
            !InChain(s', n) && Id(s', n) == Id(s, n) && Next(s', n).None?
  {
    assert ProducerOk(s, t) && ProducerOk(s, u) && EndsOk(s) && PrivateOk(s, t, u);
    hide Inv, SegOf, SlotOf;
    match Pc(s, t)
    case CasNext(_, _) => return;
    case AllocSeg(_) => return;
    case _ => return;
  }

  lemma JobKept(s: State, t: Thread, v: Value, u: Thread, j: Job)
    requires Inv(s) && JobOk(s, u, j)
    ensures JobOk(ProducerStep(s, t, v), u, j)
  {
    ProducerGrows(s, t, v, j.cur);
    hide Inv, SegOf, InChain, Id, Next, ProducerStep;
  }

  lemma OnlyOneMoves(s: State, t: Thread, v: Value, u: Thread)
    requires u != t
    ensures Pc(ProducerStep(s, t, v), u) == Pc(s, u)
  {
  }

  /** Where another producer stands is decided by its own job and the segment it offers. */
  lemma ProducerKeepsOthers(s: State, t: Thread, v: Value, u: Thread)
    requires Inv(s) && u != t
    ensures ProducerOk(ProducerStep(s, t, v), u)
  {
    assert ProducerOk(s, u);
    hide Inv, ProducerStep, InChain, Id, SegOf;
    OnlyOneMoves(s, t, v, u);
    var j := JobOf(Pc(s, u));
    ProducerGrows(s, t, v, j.cur);
    match Pc(s, u)
    case Idle => hide *; return;
    case TakeTicket(_) => hide *; return;
    case LoadSeg(_, _) => hide JobOk; return;
    case CasNext(_, _) => JobKept(s, t, v, u, j); ProducerSpares(s, t, v, u); hide JobOk, Next; return;
    case Reload(_) => JobKept(s, t, v, u, j); hide JobOk, Next; return;
    case _ => JobKept(s, t, v, u, j); hide JobOk, Next; return;
  }

  lemma OtherProducers(s: State, t: Thread, v: Value, u: Thread)
    requires u != t
    ensures Pc(ProducerStep(s, t, v), u) == Pc(s, u)
  {
    hide SegOf, SlotOf;
  }

  lemma ProducerKeepsPrivate(s: State, t: Thread, v: Value, u: Thread, w: Thread)
    requires Inv(s)
    ensures PrivateOk(ProducerStep(s, t, v), u, w)
  {
    assert PrivateOk(s, u, w) && ProducerOk(s, u) && ProducerOk(s, w);
    hide Inv, SegOf, SlotOf, JobOk;
    if t != u { OtherProducers(s, t, v, u); }
    if t != w { OtherProducers(s, t, v, w); }
    if t != u && t != w { hide ProducerStep, ProducerOk; return; }
    NewSegment(s, t, v);
    hide ProducerStep;
  }

  /** A segment a producer is about to link is the one it had, or the newest. */
  lemma NewSegment(s: State, t: Thread, v: Value)
    ensures var pc, pc' := Pc(s, t), Pc(ProducerStep(s, t, v), t);
            pc'.CasNext? ==> pc'.tmp == s.q.unused
  {
    hide SegOf, SlotOf;
  }

  lemma ProducerKeepsInv(s: State, t: Thread, v: Value)
    requires Inv(s)
    ensures Inv(ProducerStep(s, t, v))
  {
    var s' := ProducerStep(s, t, v);
    ProducerKeepsEnds(s, t, v);
    ProducerKeepsConsumer(s, t, v);
    forall n: Seg ensures SegOk(s', n) { ProducerKeepsSegs(s, t, v, n); }
    forall k: nat ensures ChainAt(s', k) { ProducerKeepsChain(s, t, v, k); }
    forall n: Seg, i: nat ensures BlankOk(s', n, i) { ProducerKeepsBlank(s, t, v, n, i); }
    forall k: nat ensures TicketOk(s', k) { ProducerKeepsTicket(s, t, v, k); }
    forall u: Thread ensures ProducerOk(s', u) {
      if u == t { ProducerKeepsSelf(s, t, v); } else { ProducerKeepsOthers(s, t, v, u); }
    }
    forall u: Thread, w: Thread ensures PrivateOk(s', u, w) { ProducerKeepsPrivate(s, t, v, u, w); }
    hide EndsOk, ConsumerOk, SegOk, ChainAt, BlankOk, TicketOk, ProducerOk, PrivateOk, ProducerStep;
  }

  lemma ConsumerKeepsEnds(s: State)
    requires Inv(s)
    ensures EndsOk(ConsumerStep(s)) && ConsumerOk(ConsumerStep(s))
  {
    assert EndsOk(s) && ConsumerOk(s) && TicketOk(s, s.q.head) && ChainAt(s, SegOf(s.q.head));
    SegOfSuccessor(s.q.head);
    match s.c
    case LoadNextSeg => hide Inv, SegOf, SlotOf; return;
    case Advance(_) => NextInChain(s, s.q.segHead); hide Inv, SegOf, SlotOf; return;
    case ReadCell => hide Inv, SegOf, SlotOf; return;
    case ReadData => hide Inv, SegOf, SlotOf; return;
    case _ => hide Inv, SegOf, SlotOf; return;
  }

  lemma ConsumerKeepsTicket(s: State, k: nat)
    requires Inv(s)
    ensures TicketOk(ConsumerStep(s), k)
  {
    assert TicketOk(s, k) && ConsumerOk(s);
    hide Inv, SegOf, SlotOf;
  }

  /** Whatever does not concern the consumer's own words. */
  lemma SameChain(s: State, s': State)
    requires Inv(s) && s'.pc == s.pc && s'.q == s.q.(head := s'.q.head, segHead := s'.q.segHead)
             && s'.g == s.g.(got := s'.g.got)
    ensures (forall n: Seg :: SegOk(s', n)) && (forall k: nat :: ChainAt(s', k))
    ensures (forall n: Seg, i: nat :: BlankOk(s', n, i))
    ensures (forall u: Thread :: ProducerOk(s', u)) && (forall u: Thread, w: Thread :: PrivateOk(s', u, w))
  {
    hide EndsOk, ConsumerOk, TicketOk, SegOf, SlotOf;
    forall n: Seg ensures SegOk(s', n) { assert SegOk(s, n); }
    forall k: nat ensures ChainAt(s', k) { assert ChainAt(s, k); }
    forall n: Seg, i: nat ensures BlankOk(s', n, i) { assert BlankOk(s, n, i); }
    forall u: Thread ensures ProducerOk(s', u) { assert ProducerOk(s, u); }
    forall u: Thread, w: Thread ensures PrivateOk(s', u, w) { assert PrivateOk(s, u, w); }
  }

  lemma ConsumerKeepsInv(s: State)
    requires Inv(s)
    ensures Inv(ConsumerStep(s))
  {
    var s' := ConsumerStep(s);
    ConsumerKeepsEnds(s);
    assert s'.pc == s.pc && s'.q == s.q.(head := s'.q.head, segHead := s'.q.segHead) && s'.g == s.g.(got := s'.g.got);
    forall k: nat ensures TicketOk(s', k) { ConsumerKeepsTicket(s, k); }
    hide ConsumerStep, EndsOk, ConsumerOk, TicketOk;
    SameChain(s, s');
    hide SegOk, ChainAt, BlankOk, ProducerOk, PrivateOk;
  }

  // ---------------------------------------------------------------- every interleaving

  function Run(schedule: seq<Turn>): State {
    if schedule == [] then INIT
    else Step(Run(schedule[..|schedule| - 1]), schedule[|schedule| - 1])
  }

  lemma {:induction false} RunKeepsInv(schedule: seq<Turn>)
    ensures Inv(Run(schedule))
  {
    if schedule != [] {
      var before, u := schedule[..|schedule| - 1], schedule[|schedule| - 1];
      RunKeepsInv(before);
      hide Inv, ProducerStep, ConsumerStep;
      match u
      case Produce(t, v) => ProducerKeepsInv(Run(before), t, v);
      case Consume => ConsumerKeepsInv(Run(before));
    }
  }

  /** No assertion in advance, find or dequeue ever fails. */
  lemma AssertsNeverFail(schedule: seq<Turn>, t: Thread)
    ensures !Pc(Run(schedule), t).Abort? && !Run(schedule).c.Stopped?
  {
    RunKeepsInv(schedule);
    assert ProducerOk(Run(schedule), t);
  }

  /** What has been delivered is a prefix of the values in ticket order. */
  lemma DeliversInTicketOrder(schedule: seq<Turn>)
    ensures Run(schedule).g.got <= Run(schedule).g.put
  {
    RunKeepsInv(schedule);
  }

  /** At most one segment per id ever joins the chain, however many producers allocate one. */
  lemma OneSegmentPerId(schedule: seq<Turn>, i: nat, j: nat)
    requires var s := Run(schedule);
             i < |s.g.chain| && j < |s.g.chain| && Id(s, s.g.chain[i]) == Id(s, s.g.chain[j])
    ensures i == j
  {
    RunKeepsInv(schedule);
    assert ChainAt(Run(schedule), i) && ChainAt(Run(schedule), j);
  }

  /** Producers that are about to write, write different cells, and none of them has been written. */
  lemma WritesAreDisjoint(schedule: seq<Turn>, t: Thread, u: Thread)
    requires t != u && Pc(Run(schedule), t).Write? && Pc(Run(schedule), u).Write?
    ensures var s := Run(schedule);
            var j, k := Pc(s, t).j, Pc(s, u).j;
            && Cell(j.cur, SlotOf(j.ticket)) != Cell(k.cur, SlotOf(k.ticket))
            && Content(s, j.cur, SlotOf(j.ticket)) == ALPHA
  {
    var s := Run(schedule);
    RunKeepsInv(schedule);
    hide Run;
    assert ProducerOk(s, t) && ProducerOk(s, u) && TicketOk(s, Pc(s, t).j.ticket);
    CellsAreDistinct(Pc(s, t).j.ticket, Pc(s, u).j.ticket);
  }

  /** Ticket `k` has been drawn, and its producer has written its cell. */
  predicate Complete(s: State, k: nat) { k < |s.g.put| && k < |s.g.taker| && !Busy(s, s.g.taker[k], k) }

  /** The load that decides a dequeue finds data exactly if the oldest undelivered ticket is complete
      and its value is not ALPHA. */
  lemma DequeueFindsComplete(schedule: seq<Turn>)
    requires Run(schedule).c.ReadCell?
    ensures var s := Run(schedule);
            Step(s, Consume).c.ReadData? <==> Complete(s, |s.g.got|) && s.g.put[|s.g.got|] != ALPHA
  {
    var s := Run(schedule);
    RunKeepsInv(schedule);
    hide Run;
    assert EndsOk(s) && ConsumerOk(s) && TicketOk(s, s.q.head) && ChainAt(s, SegOf(s.q.head));
    hide Inv, SegOf, SlotOf;
  }

  /** A dequeue that reports empty for want of a next segment has no complete ticket to miss. */
  lemma MissingSegmentMeansEmpty(schedule: seq<Turn>)
    requires Run(schedule).c.LoadNextSeg? && Step(Run(schedule), Consume).c.Rest?
    ensures var s := Run(schedule);
            !Complete(s, |s.g.got|) || s.g.put[|s.g.got|] == ALPHA
  {
    var s := Run(schedule);
    RunKeepsInv(schedule);
    hide Run;
    assert EndsOk(s) && TicketOk(s, s.q.head) && SegOk(s, s.q.segHead);
    hide Inv, SegOf, SlotOf;
  }

  /** A producer that stores ALPHA stops the queue: no dequeue ever gets past its ticket. */
  lemma AlphaBlocks(schedule: seq<Turn>, k: nat)
    requires k < |Run(schedule).g.put| && Run(schedule).g.put[k] == ALPHA
    ensures |Run(schedule).g.got| <= k
  {
    var s := Run(schedule);
    RunKeepsInv(schedule);
    hide Run;
    assert EndsOk(s) && TicketOk(s, k);
  }

  // ---------------------------------------------------------------- the queue as an object

  predicate Advancing(pc: Producer) { pc.LoadNext? || pc.AllocSeg? || pc.CasNext? || pc.Reload? }

  class Queue {
    var head: nat
    var tail: nat
    var segHead: Seg
    var id: map<Seg, nat>
    var next: map<Seg, Option<Seg>>
    var cell: map<Cell, Value>
    var unused: nat
    var pc: map<Thread, Producer>
    var c: Consumer
    ghost var history: History

    ghost function Snapshot(): State
      reads this
    {
      State(Shared(head, tail, segHead, id, next, cell, unused), pc, c, history)
    }

    ghost predicate Valid() reads this { Inv(Snapshot()) }

    constructor ()
      ensures Valid() && Snapshot() == INIT
    {
      head, tail, segHead, unused := 0, 0, 0, 1;
      id, next, cell, pc, c := map[], map[], map[], map[], Rest;
      history := INIT.g;
    }

    method Goto(t: Thread, to: Producer)
      modifies this`pc
      ensures pc == old(pc)[t := to]
    {
      pc := pc[t := to];
    }

    /** The rest of zm_faseg_advance once the next segment is known. */
    method AdvanceTo(t: Thread, j: Job, n: Seg)
      modifies this`pc
      ensures Snapshot() == Arrive(old(Snapshot()), t, j, n)
    {
      Goto(t, if At(id, n, 0) == j.i + 1 then Walk(Job(j.v, j.ticket, n, j.i + 1)) else Abort);
    }

    /** The next instruction of zm_faqueue_enqueue and zm_facell_find outside zm_faseg_advance. */
    method Enqueue(t: Thread, v: Value)
      requires Valid() && !Advancing(At(pc, t, Idle))
      modifies this
      ensures Valid() && Snapshot() == ProducerStep(old(Snapshot()), t, v)
    {
      ProducerKeepsInv(Snapshot(), t, v);
      hide Inv;
      match At(pc, t, Idle)
      case Idle => Goto(t, TakeTicket(v));
      case TakeTicket(x) =>
        var ticket := tail;
        tail := tail + 1;
        history := history.(put := history.put + [x], taker := history.taker + [t]);
        Goto(t, LoadSeg(x, ticket));
      case LoadSeg(x, k) => Goto(t, Walk(Job(x, k, segHead, At(id, segHead, 0))));
      case Walk(j) =>
        if j.i < SegOf(j.ticket) {
          Goto(t, if At(id, j.cur, 0) == j.i then LoadNext(j) else Abort);
        } else {
          Goto(t, if At(id, j.cur, 0) == SegOf(j.ticket) then Write(j) else Abort);
        }
      case Write(j) =>
        cell := cell[Cell(j.cur, SlotOf(j.ticket)) := j.v];
        Goto(t, Idle);
      case Abort =>
    }

    /** The next instruction of zm_faseg_advance. */
    method FasegAdvance(t: Thread)
      requires Valid() && Advancing(At(pc, t, Idle))
      modifies this
      ensures Valid() && Snapshot() == ProducerStep(old(Snapshot()), t, 0)
    {
      ProducerKeepsInv(Snapshot(), t, 0);
      hide Inv;
      match At(pc, t, Idle)
      case LoadNext(j) =>
        var n := At(next, j.cur, None);
        if n.None? { Goto(t, AllocSeg(j)); } else { AdvanceTo(t, j, n.value); }
      case AllocSeg(j) =>
        var tmp := unused;
        unused, id, next := tmp + 1, id[tmp := j.i + 1], next[tmp := None];
        Goto(t, CasNext(j, tmp));
      case CasNext(j, tmp) =>
        if At(next, j.cur, None).None? {
          next := next[j.cur := Some(tmp)];
          history := history.(chain := history.chain + [tmp]);
        }
        Goto(t, Reload(j));
      case Reload(j) =>
        var n := At(next, j.cur, None);
        if n.None? { Goto(t, Abort); } else { AdvanceTo(t, j, n.value); }
    }

    /** The next instruction of zm_faqueue_dequeue; the data if the call ends with this instruction and
        found any: it is then the next value in ticket order. */
    method Dequeue() returns (data: Option<Value>)
      requires Valid()
      modifies this
      ensures Valid() && Snapshot() == ConsumerStep(old(Snapshot()))
      ensures data.Some? <==> old(c).ReadData?
      ensures data.Some? ==> |old(history.got)| < |history.put| && data.value == history.put[|old(history.got)|]
    {
      ConsumerKeepsInv(Snapshot());
      data := None;
      match c
      case Rest => c := LoadNextSeg;
      case LoadNextSeg =>
        var n := At(next, segHead, None);
        var segId, here := SegOf(head), At(id, segHead, 0);
        if segId > here && n.None? {
          c := Rest;
        } else if segId > here {
          c := if segId == here + 1 then Advance(n.value) else Stopped;
        } else {
          c := ReadCell;
        }
      case Advance(n) =>
        segHead := n;
        c := if SegOf(head) == At(id, n, 0) then ReadCell else Stopped;
      case ReadCell =>
        c := if At(cell, Cell(segHead, SlotOf(head)), ALPHA) == ALPHA then Rest else ReadData;
      case ReadData =>
        data := Some(At(cell, Cell(segHead, SlotOf(head)), ALPHA));
        head, c := head + 1, Rest;
        history := history.(got := history.got + [data.value]);
      case Stopped =>
    }
  }
}
