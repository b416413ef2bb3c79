/**
 The hierarchical lock of zm_hmcs.c: a tree of MCS queues of any depth, shared by any number of
 threads.  Owning a tree node means heading its queue; the owner of a node below the root enqueues
 that node's embedded queue node one level up.  A thread that finds its leaf and the root free may
 put its own queue node straight into the root's queue.
 */
module Hmcs {
  import opened Cells

  type Thread = nat

  const WAIT := 0xffff_ffff
  const COHORT_START := 1
  const ACQUIRE_PARENT := 0xcfff_fffc

  /** A tree node; level 0 is the one the leaves point to, level `levels - 1` is the root. */
  datatype HNode = HNode(level: nat, index: nat)

  /** A queue node: the one in a thread's leaf, or the one embedded in a tree node. */
  datatype QNode = Leaf(t: Thread) | Embedded(h: HNode)

  /** The shape of the tree: where each thread's leaf points and the parent of each tree node. */
  datatype Tree = Tree(levels: nat, threshold: nat, home: Thread -> nat, up: HNode -> nat)

  function Parent(c: Tree, h: HNode): HNode { HNode(h.level + 1, c.up(h)) }

  /** The level-`i` node on the way from thread `t` to the root. */
  function Anc(c: Tree, t: Thread, i: nat): (h: HNode)
    ensures h.level == i
  {
    if i == 0 then HNode(0, c.home(t)) else Parent(c, Anc(c, t, i - 1))
  }

  ghost predicate ValidTree(c: Tree) {
    && 1 <= c.levels
    && 1 <= c.threshold < ACQUIRE_PARENT
    && forall t: Thread, i: nat :: i + 1 == c.levels ==> Anc(c, t, i) == Root(c)
  }

  function Root(c: Tree): HNode { HNode(if c.levels == 0 then 0 else c.levels - 1, 0) }

  lemma {:induction false} AncestorsMerge(c: Tree, t: Thread, u: Thread, i: nat, j: nat)
    requires i <= j && Anc(c, t, i) == Anc(c, u, i)
    ensures Anc(c, t, j) == Anc(c, u, j)
  {
    if i < j {
      AncestorsMerge(c, t, u, i, j - 1);
    }
  }

  // ---------------------------------------------------------------- states

  /** Where a call operates: a level on the thread's path, or the root through the thread's own leaf. */
  datatype Site = Site(level: nat, fast: bool)

  datatype AcqOp =
    | ReuseStatus(try: bool)   // I->status := WAIT
    | ReuseNext(try: bool)     // I->next := NULL
    | Swap                     // pred := SWAP(L->lock, I)
    | Start                    // I->status := COHORT_START
    | Link(pred: QNode)        // pred->next := I
    | Spin                     // load I->status
    | TryCas                   // CAS(L->lock, NULL, I)

  datatype ClimbOp =
    | ReadCount                        // cur_count := I->status
    | ReadSucc(count: int)             // succ := I->next
    | Pass(count: int, succ: QNode)    // succ->status := cur_count + 1

  datatype RelOp =
    | Unlock                   // succ := I->next
    | UnlockCas                // CAS(L->lock, I, NULL)
    | UnlockSpin               // while succ == NULL: succ := I->next
    | Handoff(succ: QNode)     // succ->status := val

  datatype PC =
    | Idle
    | PeekLeaf(try: bool)      // L->cur_node->lock == NULL ?
    | PeekRoot(try: bool)      // L->root_node->lock == NULL ?
    | SetFast                  // took_fast_path := TRUE, before acquire_root
    | Acq(op: AcqOp, site: Site)
    | TryFlag                  // took_fast_path := TRUE, after a successful tryacq_root
    | Critical
    | ReadFlag                 // if took_fast_path
    | Climb(cop: ClimbOp, level: nat)
    | Rel(rop: RelOp, site: Site)
    | ClearFast                // took_fast_path := FALSE

  /**
   `queue`, `owner` and `served` are history variables: the queue nodes waiting at each tree node in
   swap order, the thread that owns each tree node, and the number of critical sections entered since
   the root was last released.
   */
  datatype State = State(
    lock: map<HNode, Option<QNode>>,
    status: map<QNode, int>,
    next: map<QNode, Option<QNode>>,
    took: map<Thread, bool>,
    pc: map<Thread, PC>,
    queue: map<HNode, seq<QNode>>,
    owner: map<HNode, Option<Thread>>,
    served: nat)

  const INIT := State(map[], map[], map[], map[], map[], map[], map[], 0)

  function Lock(s: State, h: HNode): Option<QNode> { At(s.lock, h, None) }
  function Status(s: State, q: QNode): int { At(s.status, q, WAIT) }
  function Next(s: State, q: QNode): Option<QNode> { At(s.next, q, None) }
  function Took(s: State, t: Thread): bool { At(s.took, t, false) }
  function Pc(s: State, t: Thread): PC { At(s.pc, t, Idle) }
  function Queue(s: State, h: HNode): seq<QNode> { At(s.queue, h, []) }
  function Owner(s: State, h: HNode): Option<Thread> { At(s.owner, h, None) }

  /** The queue node a thread uses at a site, and the tree node whose queue it is for. */
  function QAt(c: Tree, t: Thread, a: Site): QNode {
    if a.fast || a.level == 0 then Leaf(t) else Embedded(Anc(c, t, a.level - 1))
  }
  function HAt(c: Tree, t: Thread, a: Site): HNode { Anc(c, t, a.level) }

  /** The thread that acts for a queue node. */
  function Actor(s: State, q: QNode): Option<Thread> {
    match q case Leaf(t) => Some(t) case Embedded(g) => Owner(s, g)
  }

  // ---------------------------------------------------------------- the instructions

  function Goto(s: State, t: Thread, pc: PC): State {
    s.(pc := s.pc[t := pc], served := if pc.Critical? && !Pc(s, t).Critical? then s.served + 1 else s.served)
  }

  predicate AtRoot(c: Tree, a: Site) { a.level + 1 == c.levels }

  /** The value a full release leaves in its successor: release_root against release_helper. */
  function ReleaseValue(c: Tree, a: Site): int { if AtRoot(c, a) then COHORT_START else ACQUIRE_PARENT }

  /** The first instruction of release_helper at a level. */
  function ReleaseEntry(c: Tree, i: nat): PC {
    if i + 1 >= c.levels then Rel(Unlock, Site(i, false)) else Climb(ReadCount, i)
  }

  /** What follows once the release at a site is complete: return to the level below. */
  function Down(a: Site): PC {
    if a.fast then ClearFast else if a.level == 0 then Idle else Rel(Unlock, Site(a.level - 1, false))
  }

  /** `t` gives up every tree node it owns from `level` upwards to the thread acting for `succ`. */
  function Grant(s: State, t: Thread, h: HNode, succ: QNode, value: int): State {
    s.(status := s.status[succ := value],
       queue := s.queue[h := if Queue(s, h) == [] then [] else Queue(s, h)[1..]],
       owner := map x | x in s.owner ::
         if s.owner[x] == Some(t) && h.level <= x.level then Actor(s, succ) else s.owner[x])
  }

  /** `t` takes the free tree node `h`. */
  function Seize(s: State, t: Thread, h: HNode, q: QNode): State {
    s.(lock := s.lock[h := Some(q)], queue := s.queue[h := [q]], owner := s.owner[h := Some(t)])
  }

  function AcqStep(c: Tree, s: State, t: Thread, op: AcqOp, a: Site): State {
    var q, h := QAt(c, t, a), HAt(c, t, a);
    match op
    case ReuseStatus(try) => Goto(s.(status := s.status[q := WAIT]), t, Acq(ReuseNext(try), a))
    case ReuseNext(try) => Goto(s.(next := s.next[q := None]), t, Acq(if try then TryCas else Swap, a))
    case Swap =>
      if Lock(s, h).None? then Goto(Seize(s, t, h, q), t, if AtRoot(c, a) then Critical else Acq(Start, a))
      else Goto(s.(lock := s.lock[h := Some(q)], queue := s.queue[h := Queue(s, h) + [q]]),
                t, Acq(Link(Lock(s, h).value), a))
    case Start => Goto(s.(status := s.status[q := COHORT_START]), t, Acq(ReuseStatus(false), Site(a.level + 1, false)))
    case Link(p) => Goto(s.(next := s.next[p := Some(q)]), t, Acq(Spin, a))
    case Spin =>
      if Status(s, q) == WAIT then s
      else if AtRoot(c, a) || Status(s, q) < ACQUIRE_PARENT then Goto(s, t, Critical)
      else if Status(s, q) == ACQUIRE_PARENT then Goto(s, t, Acq(Start, a))
      else s
    case TryCas =>
      if Lock(s, h).None? then Goto(Seize(s, t, h, q), t, TryFlag) else Goto(s, t, Idle)
  }

  function ClimbStep(c: Tree, s: State, t: Thread, op: ClimbOp, i: nat): State {
    var a := Site(i, false);
    var q, h := QAt(c, t, a), HAt(c, t, a);
    match op
    case ReadCount =>
      Goto(s, t, if Status(s, q) == c.threshold then ReleaseEntry(c, i + 1) else Climb(ReadSucc(Status(s, q)), i))
    case ReadSucc(n) =>
      Goto(s, t, if Next(s, q).Some? then Climb(Pass(n, Next(s, q).value), i) else ReleaseEntry(c, i + 1))
    case Pass(n, succ) => Goto(Grant(s, t, h, succ, n + 1), t, Down(a))
  }

  function RelStep(c: Tree, s: State, t: Thread, op: RelOp, a: Site): State {
    var q, h := QAt(c, t, a), HAt(c, t, a);
    match op
    case Unlock => Goto(s, t, Rel(if Next(s, q).Some? then Handoff(Next(s, q).value) else UnlockCas, a))
    case UnlockCas =>
      if Lock(s, h) == Some(q) then
        Goto(s.(lock := s.lock[h := None], queue := s.queue[h := []], owner := s.owner[h := None],
                served := if AtRoot(c, a) then 0 else s.served), t, Down(a))
      else Goto(s, t, Rel(UnlockSpin, a))
    case UnlockSpin => if Next(s, q).Some? then Goto(s, t, Rel(Handoff(Next(s, q).value), a)) else s
    case Handoff(succ) =>
      Goto(Grant(s.(served := if AtRoot(c, a) then 0 else s.served), t, h, succ, ReleaseValue(c, a)), t, Down(a))
  }

  /** One instruction of thread `t`; an idle thread calls acquire, or tryacq when `try`. */
  function Step(c: Tree, s: State, t: Thread, try: bool): State
    requires c.levels >= 1
  {
    var slow := Acq(ReuseStatus(false), Site(0, false));
    match Pc(s, t)
    case Idle => Goto(s, t, PeekLeaf(try))
    case PeekLeaf(b) =>
      Goto(s, t, if Lock(s, Anc(c, t, 0)).None? then PeekRoot(b) else if b then Idle else slow)
    case PeekRoot(b) =>
      Goto(s, t, if Lock(s, Root(c)).Some? then (if b then Idle else slow)
                 else if b then Acq(ReuseStatus(true), Site(c.levels - 1, true)) else SetFast)
    case SetFast => Goto(s.(took := s.took[t := true]), t, Acq(ReuseStatus(false), Site(c.levels - 1, true)))
    case Acq(op, a) => AcqStep(c, s, t, op, a)
    case TryFlag => Goto(s.(took := s.took[t := true]), t, Critical)
    case Critical => Goto(s, t, ReadFlag)
    case ReadFlag => Goto(s, t, if Took(s, t) then Rel(Unlock, Site(c.levels - 1, true)) else ReleaseEntry(c, 0))
    case Climb(op, i) => ClimbStep(c, s, t, op, i)
    case Rel(op, a) => RelStep(c, s, t, op, a)
    case ClearFast => Goto(s.(took := s.took[t := false]), t, Idle)
  }

  // ---------------------------------------------------------------- invariant

  /** The thread is operating on the root through its own queue node. */
  predicate Fast(s: State, t: Thread) {
    match Pc(s, t)
    case Acq(_, a) => a.fast
    case Rel(_, a) => a.fast
    case TryFlag => true
    case Critical => Took(s, t)
    case ReadFlag => Took(s, t)
    case _ => false
  }

  /** One more than the highest level the thread owns; 0 if it owns nothing. */
  function Top(c: Tree, s: State, t: Thread): nat {
    match Pc(s, t)
    case Acq(op, a) =>
      if op.Start? then a.level + 1
      else if op.Spin? && Status(s, QAt(c, t, a)) != WAIT then
        if !AtRoot(c, a) && Status(s, QAt(c, t, a)) == ACQUIRE_PARENT then a.level + 1 else c.levels
      else a.level
    case TryFlag => c.levels
    case Critical => c.levels
    case ReadFlag => c.levels
    case Climb(_, _) => c.levels
    case Rel(_, a) => a.level + 1
    case _ => 0
  }

  /** The thread owns `h`: it lies on the thread's path within the levels the thread has acquired. */
  predicate Holds(c: Tree, s: State, t: Thread, h: HNode) {
    && h.level < Top(c, s, t) && h.level < c.levels
    && (Fast(s, t) ==> h.level + 1 == c.levels)
    && Anc(c, t, h.level) == h
  }

  /** The queue node through which `t` owns a tree node. */
  function QOf(c: Tree, s: State, t: Thread, h: HNode): QNode { QAt(c, t, Site(h.level, Fast(s, t))) }

  /** The one queue a queue node can be in. */
  function Home(c: Tree, s: State, q: QNode): HNode {
    match q
    case Leaf(t) => if Fast(s, t) then Root(c) else Anc(c, t, 0)
    case Embedded(g) => Parent(c, g)
  }

  /** `q` waits right behind `p` at `h`: the link is either still owed by the acting thread or in place. */
  predicate Waits(c: Tree, s: State, h: HNode, p: QNode, q: QNode) {
    && Actor(s, q).Some?
    && var u := Actor(s, q).value;
    && Pc(s, u).Acq? && HAt(c, u, Pc(s, u).site) == h && QAt(c, u, Pc(s, u).site) == q
    && Status(s, q) == WAIT
    && (match Pc(s, u).op
        case Link(r) => r == p && Next(s, p).None?
        case Spin => Next(s, p) == Some(q)
        case _ => false)
  }

  ghost predicate QueueOk(c: Tree, s: State, h: HNode) {
    var qs := Queue(s, h);
    && (forall i, j :: 0 <= i < j < |qs| ==> qs[i] != qs[j])
    && (forall q :: q in qs ==> Home(c, s, q) == h)
    && (forall i, j :: 0 <= i < j < |qs| && j == i + 1 ==> Waits(c, s, h, qs[i], qs[j]))
    && Lock(s, h) == (if qs == [] then None else Some(qs[|qs| - 1]))
    && (Owner(s, h).None? <==> qs == [])
    && (qs != [] ==> qs[0] == QOf(c, s, Owner(s, h).value, h) && Next(s, qs[|qs| - 1]).None?)
  }

  predicate OwnerOk(c: Tree, s: State, h: HNode, t: Thread) {
    Owner(s, h) == Some(t) <==> Holds(c, s, t, h)
  }

  predicate SiteOk(c: Tree, a: Site) { a.level < c.levels && (a.fast ==> AtRoot(c, a)) }

  predicate Trying(op: AcqOp) { op.TryCas? || ((op.ReuseStatus? || op.ReuseNext?) && op.try) }

  predicate Counts(c: Tree, n: int) { 1 <= n <= c.threshold }

  /** What a thread may rely on at each instruction. */
  predicate LocalOk(c: Tree, s: State, t: Thread) {
    match Pc(s, t)
    case Acq(op, a) =>
      var q, h := QAt(c, t, a), HAt(c, t, a);
      && SiteOk(c, a)
      && Took(s, t) == (a.fast && !Trying(op))
      && (Trying(op) ==> a.fast)
      && (op.ReuseNext? || op.Swap? || op.TryCas? || op.Link? ==> Status(s, q) == WAIT)
      && (op.Swap? || op.TryCas? ==> Next(s, q).None?)
      && (op.Start? ==> !AtRoot(c, a))
      && (op.Link? || (op.Spin? && Status(s, q) == WAIT) ==> q in Queue(s, h))
      && (op.Spin? && !AtRoot(c, a) ==>
            Status(s, q) == WAIT || Status(s, q) == ACQUIRE_PARENT || Counts(c, Status(s, q)))
    case Climb(op, i) =>
      var q := QAt(c, t, Site(i, false));
      && i + 1 < c.levels && !Took(s, t)
      && (op.ReadSucc? || op.Pass? ==> op.count == Status(s, q) != c.threshold)
      && (op.Pass? ==> Next(s, q) == Some(op.succ))
    case Rel(op, a) =>
      var q, h := QAt(c, t, a), HAt(c, t, a);
      && SiteOk(c, a) && Took(s, t) == a.fast
      && (op.UnlockSpin? ==> Lock(s, h) != Some(q))
      && (op.Handoff? ==> Next(s, q) == Some(op.succ))
    case ClearFast => Took(s, t)
    case Critical => true
    case ReadFlag => true
    case _ => !Took(s, t)
  }

  /** The thread holds the lock through its leaf's tree node, with a valid pass count at every level. */
  predicate Counted(c: Tree, s: State, t: Thread) {
    match Pc(s, t)
    case Critical => !Took(s, t)
    case ReadFlag => !Took(s, t)
    case Climb(_, _) => true
    case Acq(op, a) => op.Spin? && !AtRoot(c, a) && Counts(c, Status(s, QAt(c, t, a)))
    case _ => false
  }

  /** The count in the level-`j` queue node of the thread's path: 1 on the way up, in [1, threshold] afterwards. */
  predicate CountOk(c: Tree, s: State, t: Thread, j: nat) {
    var n := Status(s, QAt(c, t, Site(j, false)));
    && (Pc(s, t).Acq? && !Pc(s, t).site.fast && j < Pc(s, t).site.level ==> n == COHORT_START)
    && (Counted(c, s, t) && j + 1 < c.levels ==> Counts(c, n))
  }

  ghost predicate Inv(c: Tree, s: State) {
    && (forall h: HNode, t: Thread :: OwnerOk(c, s, h, t))
    && (forall h: HNode :: QueueOk(c, s, h))
    && (forall t: Thread :: LocalOk(c, s, t))
    && (forall t: Thread, j: nat :: CountOk(c, s, t, j))
  }

  // ---------------------------------------------------------------- runs

  /** A schedule says which thread executes next and, if it is idle, which call it makes. */
  datatype Turn = Turn(t: Thread, try: bool)

  function Run(c: Tree, schedule: seq<Turn>): State
    requires c.levels >= 1
  {
    if schedule == [] then INIT
    else
      var last := |schedule| - 1;
      Step(c, Run(c, schedule[..last]), schedule[last].t, schedule[last].try)
  }

  /** The call to acquire or tryacq has succeeded and the release has not yet given anything up. */
  predicate Inside(pc: PC) { pc.TryFlag? || pc.Critical? || pc.ReadFlag? || pc.Climb? }
}
