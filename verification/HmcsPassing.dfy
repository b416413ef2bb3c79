/** The hierarchical lock: how many critical sections run between two releases of the root. */
module HmcsPassing {
  import opened Cells
  import opened Hmcs
  import opened HmcsQuiet
  import opened HmcsLeave
  import opened HmcsRuns

  // ---------------------------------------------------------------- bounded passing

  function Pow(b: nat, e: nat): nat { if e == 0 then 1 else b * Pow(b, e - 1) }

  /** The pass counts on `t`'s path from level `j` up, read as a number in base `threshold`; level 0
      is the least significant digit. */
  function Radix(c: Tree, s: State, t: Thread, j: nat): int
    decreases c.levels - j
  {
    if j + 1 >= c.levels then 0
    else Status(s, QAt(c, t, Site(j, false))) - COHORT_START + c.threshold * Radix(c, s, t, j + 1)
  }

  /** One digit in front of a number: it stays below the next power, and dropping the digit in favour
      of a carry makes it larger. */
  lemma DigitInFront(b: nat, d: int, r: int, r': int, p: int)
    requires 0 <= d < b
    ensures 0 <= r < p ==> 0 <= d + b * r < b * p
    ensures r + 1 <= r' ==> d + b * r + 1 <= b * r'
  {
    if 0 <= r < p {
      assert b * (r + 1) <= b * p;
      assert 0 <= b * r;
    }
    if r + 1 <= r' {
      assert b * (r + 1) <= b * r';
    }
  }

  lemma {:induction false} RadixBounds(c: Tree, s: State, t: Thread, j: nat)
    requires ValidTree(c) && j < c.levels
    requires forall k: nat :: j <= k && k + 1 < c.levels ==> Counts(c, Status(s, QAt(c, t, Site(k, false))))
    ensures 0 <= Radix(c, s, t, j) < Pow(c.threshold, c.levels - 1 - j)
    decreases c.levels - j
  {
    if j + 1 < c.levels {
      RadixBounds(c, s, t, j + 1);
      var n, r := Status(s, QAt(c, t, Site(j, false))), Radix(c, s, t, j + 1);
      assert Counts(c, n);
      DigitInFront(c.threshold, n - 1, r, r, Pow(c.threshold, c.levels - 2 - j));
    }
  }

  lemma {:induction false} RadixFrame(c: Tree, s: State, s': State, t: Thread, j: nat)
    requires forall k: nat :: j <= k && k + 1 < c.levels ==>
               Status(s', QAt(c, t, Site(k, false))) == Status(s, QAt(c, t, Site(k, false)))
    ensures Radix(c, s', t, j) == Radix(c, s, t, j)
    decreases c.levels - j
  {
    if j + 1 < c.levels { RadixFrame(c, s, s', t, j + 1); }
  }

  /** Equal counts above `i`, one more at `i` and fresh counts below make a larger number: a pass at
      level `i` from `t` to `w` is a carry. */
  lemma {:induction false} RadixCarry(c: Tree, s: State, s': State, t: Thread, w: Thread, i: nat, j: nat)
    requires ValidTree(c) && j <= i && i + 1 < c.levels
    requires forall k: nat :: i < k && k + 1 < c.levels ==>
               Status(s', QAt(c, w, Site(k, false))) == Status(s, QAt(c, t, Site(k, false)))
    requires Status(s', QAt(c, w, Site(i, false))) == Status(s, QAt(c, t, Site(i, false))) + 1
    requires forall k: nat :: k < i ==> Status(s', QAt(c, w, Site(k, false))) == COHORT_START
    requires forall k: nat :: k < i ==> Counts(c, Status(s, QAt(c, t, Site(k, false))))
    ensures Radix(c, s', w, j) >= Radix(c, s, t, j) + 1
    decreases i - j
  {
    if j < i {
      RadixCarry(c, s, s', t, w, i, j + 1);
      var n := Status(s, QAt(c, t, Site(j, false)));
      assert Counts(c, n);
      assert Status(s', QAt(c, w, Site(j, false))) == COHORT_START;
      DigitInFront(c.threshold, n - 1, Radix(c, s, t, j + 1), Radix(c, s', w, j + 1), 0);
    } else {
      RadixAcross(c, s, s', t, w, i + 1);
    }
  }

  lemma {:induction false} RadixAcross(c: Tree, s: State, s': State, t: Thread, w: Thread, j: nat)
    requires forall k: nat :: j <= k && k + 1 < c.levels ==>
               Status(s', QAt(c, w, Site(k, false))) == Status(s, QAt(c, t, Site(k, false)))
    ensures Radix(c, s', w, j) == Radix(c, s, t, j)
    decreases c.levels - j
  {
    if j + 1 < c.levels { RadixAcross(c, s, s', t, w, j + 1); }
  }

  /** How many critical sections can have been entered since the root was last released, given what
      the root's owner is doing. */
  function Limit(c: Tree, s: State, t: Thread): int {
    match Pc(s, t)
    case Acq(_, a) => if AtRoot(c, a) then 0 else Radix(c, s, t, 0)
    case Critical => if Took(s, t) then 1 else Radix(c, s, t, 0) + 1
    case ReadFlag => if Took(s, t) then 1 else Radix(c, s, t, 0) + 1
    case Climb(_, _) => Radix(c, s, t, 0) + 1
    case Rel(_, _) => Pow(c.threshold, Root(c).level)
    case _ => 0
  }

  predicate ServedOk(c: Tree, s: State) {
    match Owner(s, Root(c))
    case None => s.served == 0
    case Some(t) => s.served <= Limit(c, s, t)
  }

  lemma PowPositive(b: nat, e: nat)
    requires b >= 1
    ensures Pow(b, e) >= 1
  {
  }

  /** While its counts are valid the holder's radix number is one. */
  lemma CountedRadix(c: Tree, s: State, t: Thread)
    requires ValidTree(c) && Inv(c, s) && Counted(c, s, t)
    ensures 0 <= Radix(c, s, t, 0) < Pow(c.threshold, c.levels - 1)
  {
    forall k: nat | k + 1 < c.levels ensures Counts(c, Status(s, QAt(c, t, Site(k, false)))) {
      assert CountOk(c, s, t, k);
    }
    RadixBounds(c, s, t, 0);
  }

  lemma OwnerOfRoot(c: Tree, s: State, t: Thread)
    requires ValidTree(c) && Inv(c, s) && Owner(s, Root(c)) == Some(t)
    ensures Inside(Pc(s, t)) || (Pc(s, t).Rel? && AtRoot(c, Pc(s, t).site))
            || (Pc(s, t).Acq? && Pc(s, t).op.Spin? && Status(s, QAt(c, t, Pc(s, t).site)) != WAIT
                && (AtRoot(c, Pc(s, t).site) || Counted(c, s, t)))
  {
    assert OwnerOk(c, s, Root(c), t) && LocalOk(c, s, t);
  }

  lemma ServedBound(c: Tree, s: State)
    requires ValidTree(c) && Inv(c, s) && ServedOk(c, s)
    ensures s.served <= Pow(c.threshold, c.levels - 1)
  {
    PowPositive(c.threshold, c.levels - 1);
    if Owner(s, Root(c)).Some? {
      var t := Owner(s, Root(c)).value;
      OwnerOfRoot(c, s, t);
      if Counted(c, s, t) { CountedRadix(c, s, t); }
    }
  }

  /** Everything a step of `t` leaves alone as far as the root's owner `x` is concerned. */
  ghost predicate Unaffected(c: Tree, s: State, s': State, x: Thread) {
    && Owner(s', Root(c)) == Owner(s, Root(c)) && s'.served == s.served
    && Pc(s', x) == Pc(s, x) && Took(s', x) == Took(s, x)
    && forall q :: Actor(s, q) == Some(x) ==> Status(s', q) == Status(s, q)
  }

  lemma OnlyOwnerEnters(c: Tree, s: State, t: Thread, try: bool, x: Thread)
    requires ValidTree(c) && Inv(c, s) && t != x && Owner(s, Root(c)) == Some(x) && Pc(s, t).Acq?
    ensures !Pc(Step(c, s, t, try), t).Critical?
  {
    assert LocalOk(c, s, t) && OwnerOk(c, s, Root(c), t) && QueueOk(c, s, HAt(c, t, Pc(s, t).site));
    hide Inv, Grant, RelStep, ClimbStep;
    match Pc(s, t).op
    case Swap => return;
    case Spin => return;
    case _ => return;
  }

  lemma OtherSwap(c: Tree, s: State, t: Thread, try: bool, x: Thread)
    requires ValidTree(c) && Inv(c, s) && t != x && Owner(s, Root(c)) == Some(x) && Pc(s, t).Acq? && Pc(s, t).op.Swap?
    ensures Unaffected(c, s, Step(c, s, t, try), x)
  {
    var h := HAt(c, t, Pc(s, t).site);
    OnlyOwnerEnters(c, s, t, try, x);
    assert Lock(s, h).None? ==> h != Root(c) by { assert QueueOk(c, s, h); }
    hide Inv, ValidTree, ClimbStep, RelStep, QAt, HAt, Root;
  }

  lemma OtherTry(c: Tree, s: State, t: Thread, try: bool, x: Thread)
    requires ValidTree(c) && Inv(c, s) && t != x && Owner(s, Root(c)) == Some(x) && Pc(s, t).Acq? && Pc(s, t).op.TryCas?
    ensures Unaffected(c, s, Step(c, s, t, try), x)
  {
    var h := HAt(c, t, Pc(s, t).site);
    OnlyOwnerEnters(c, s, t, try, x);
    assert Lock(s, h).None? ==> h != Root(c) by { assert QueueOk(c, s, h); }
    hide Inv, ValidTree, ClimbStep, RelStep, QAt, HAt, Root;
  }

  /** Between its swap and its entry a thread writes at most its own queue node and a link. */
  ghost predicate OwnNodeOnly(c: Tree, s: State, s': State, t: Thread)
    requires Pc(s, t).Acq?
  {
    && s'.owner == s.owner && s'.took == s.took
    && s'.served == (if Pc(s', t).Critical? then s.served + 1 else s.served)
    && (forall u: Thread :: u != t ==> Pc(s', u) == Pc(s, u))
    && (forall q :: q != QAt(c, t, Pc(s, t).site) ==> Status(s', q) == Status(s, q))
  }

  lemma AcqWritesNode(c: Tree, s: State, t: Thread, try: bool)
    requires c.levels >= 1 && Pc(s, t).Acq?
             && (Pc(s, t).op.ReuseStatus? || Pc(s, t).op.ReuseNext? || Pc(s, t).op.Start?)
    ensures OwnNodeOnly(c, s, Step(c, s, t, try), t)
  {
    hide QAt, HAt, RelStep, ClimbStep, Seize, AtRoot;
  }

  lemma AcqWritesLink(c: Tree, s: State, t: Thread, try: bool)
    requires c.levels >= 1 && Pc(s, t).Acq? && (Pc(s, t).op.Link? || Pc(s, t).op.Spin?)
    ensures OwnNodeOnly(c, s, Step(c, s, t, try), t)
  {
    hide QAt, HAt, RelStep, ClimbStep, Seize, AtRoot;
  }

  lemma OtherAcq(c: Tree, s: State, t: Thread, try: bool, x: Thread)
    requires ValidTree(c) && Inv(c, s) && t != x && Owner(s, Root(c)) == Some(x)
    requires Pc(s, t).Acq? && !Pc(s, t).op.Swap? && !Pc(s, t).op.TryCas?
    ensures Unaffected(c, s, Step(c, s, t, try), x)
  {
    assert c.levels >= 1;
    hide Inv, ValidTree, Step, QAt, HAt, Root;
    if Pc(s, t).op.Link? || Pc(s, t).op.Spin? { AcqWritesLink(c, s, t, try); } else { AcqWritesNode(c, s, t, try); }
    OnlyOwnerEnters(c, s, t, try, x);
    ActsAtSite(c, s, t);
  }

  lemma OtherPass(c: Tree, s: State, t: Thread, try: bool, x: Thread)
    requires ValidTree(c) && Inv(c, s) && t != x && Owner(s, Root(c)) == Some(x) && Pc(s, t).Climb?
             && Pc(s, t).cop.Pass?
    ensures Unaffected(c, s, Step(c, s, t, try), x)
  {
    OwnerOfRoot(c, s, x);
    ReleaserHeads(c, s, t);
    SuccessorWaits(c, s, t, Pc(s, t).cop.succ);
    hide Inv, AcqStep, RelStep, Waits;
  }

  lemma OtherHandoff(c: Tree, s: State, t: Thread, try: bool, x: Thread)
    requires ValidTree(c) && Inv(c, s) && t != x && Owner(s, Root(c)) == Some(x) && Pc(s, t).Rel?
             && Pc(s, t).rop.Handoff?
    ensures Unaffected(c, s, Step(c, s, t, try), x)
  {
    OwnerOfRoot(c, s, x);
    ReleaserHeads(c, s, t);
    SuccessorWaits(c, s, t, Pc(s, t).rop.succ);
    hide Inv, AcqStep, ClimbStep, Waits;
  }

  lemma OtherClimb(c: Tree, s: State, t: Thread, try: bool, x: Thread)
    requires ValidTree(c) && Inv(c, s) && t != x && Owner(s, Root(c)) == Some(x) && Pc(s, t).Climb?
             && !Pc(s, t).cop.Pass?
    ensures Unaffected(c, s, Step(c, s, t, try), x)
  {
    assert c.levels >= 1;
    hide Inv, ValidTree, Step, RelStep, Root;
    ClimbProbes(c, s, t, try);
  }

  lemma OtherProbe(c: Tree, s: State, t: Thread, try: bool, x: Thread)
    requires ValidTree(c) && Inv(c, s) && t != x && Owner(s, Root(c)) == Some(x) && Pc(s, t).Rel?
             && !Pc(s, t).rop.Handoff?
    ensures Unaffected(c, s, Step(c, s, t, try), x)
  {
    ReleaserHeads(c, s, t);
    hide Inv, ValidTree, Grant, AcqStep, ClimbStep;
    match Pc(s, t).rop
    case Unlock => return;
    case UnlockCas => return;
    case UnlockSpin => return;
  }

  /** A step that writes at most the thread's own flag, and counts as an entry only at TryFlag. */
  ghost predicate SideEffect(s: State, s': State, t: Thread) {
    && s'.owner == s.owner && s'.status == s.status
    && s'.served == (if Pc(s, t).TryFlag? then s.served + 1 else s.served)
    && (forall u: Thread :: u != t ==> Took(s', u) == Took(s, u) && Pc(s', u) == Pc(s, u))
  }

  lemma EntrySideStep(c: Tree, s: State, t: Thread, try: bool)
    requires c.levels >= 1 && (Pc(s, t).Idle? || Pc(s, t).PeekLeaf? || Pc(s, t).PeekRoot? || Pc(s, t).SetFast?)
    ensures SideEffect(s, Step(c, s, t, try), t)
  {
    hide AcqStep, ClimbStep, RelStep, Root, Anc;
  }

  lemma ExitSideStep(c: Tree, s: State, t: Thread, try: bool)
    requires c.levels >= 1 && (Pc(s, t).TryFlag? || Pc(s, t).Critical? || Pc(s, t).ReadFlag? || Pc(s, t).ClearFast?)
    ensures SideEffect(s, Step(c, s, t, try), t)
  {
    hide AcqStep, ClimbStep, RelStep, Root, Anc;
  }

  lemma OtherSide(c: Tree, s: State, t: Thread, try: bool, x: Thread)
    requires ValidTree(c) && Inv(c, s) && t != x && Owner(s, Root(c)) == Some(x)
    requires !Pc(s, t).Acq? && !Pc(s, t).Climb? && !Pc(s, t).Rel?
    ensures Unaffected(c, s, Step(c, s, t, try), x)
  {
    if Pc(s, t).TryFlag? { InsideOwnsRoot(c, s, t); }
    hide Inv, ValidTree, Step, Root;
    if Pc(s, t).TryFlag? || Pc(s, t).Critical? || Pc(s, t).ReadFlag? || Pc(s, t).ClearFast? {
      ExitSideStep(c, s, t, try);
    } else {
      EntrySideStep(c, s, t, try);
    }
  }

  /** A step of another thread leaves the root's owner, its counts and the number served alone. */
  lemma OtherUnaffected(c: Tree, s: State, t: Thread, try: bool, x: Thread)
    requires ValidTree(c) && Inv(c, s) && t != x && Owner(s, Root(c)) == Some(x)
    ensures Unaffected(c, s, Step(c, s, t, try), x)
  {
    hide Inv, ValidTree, Step, Unaffected;
    match Pc(s, t)
    case Acq(op, _) =>
      if op.Swap? {
        OtherSwap(c, s, t, try, x);
      } else if op.TryCas? {
        OtherTry(c, s, t, try, x);
      } else {
        OtherAcq(c, s, t, try, x);
      }
    case Climb(op, _) => if op.Pass? { OtherPass(c, s, t, try, x); } else { OtherClimb(c, s, t, try, x); }
    case Rel(op, _) => if op.Handoff? { OtherHandoff(c, s, t, try, x); } else { OtherProbe(c, s, t, try, x); }
    case _ => OtherSide(c, s, t, try, x);
  }

  lemma OtherLimit(c: Tree, s: State, t: Thread, try: bool, x: Thread)
    requires ValidTree(c) && Inv(c, s) && t != x && Owner(s, Root(c)) == Some(x)
    ensures Limit(c, Step(c, s, t, try), x) == Limit(c, s, x)
  {
    var s' := Step(c, s, t, try);
    OwnerOfRoot(c, s, x);
    OtherUnaffected(c, s, t, try, x);
    if Counted(c, s, x) {
      forall k: nat | k + 1 < c.levels
        ensures Status(s', QAt(c, x, Site(k, false))) == Status(s, QAt(c, x, Site(k, false)))
      {
        CountActor(c, s, x, k);
      }
      RadixFrame(c, s, s', x, 0);
    }
  }

  /** Below the level of a pass the new holder starts from 1. */
  lemma DigitBelow(c: Tree, s: State, t: Thread, try: bool, w: Thread, k: nat)
    requires ValidTree(c) && Inv(c, s) && Pc(s, t).Climb? && Pc(s, t).cop.Pass?
             && Actor(s, Pc(s, t).cop.succ) == Some(w)
    requires k < Pc(s, t).level
    ensures Status(Step(c, s, t, try), QAt(c, w, Site(k, false))) == COHORT_START
    ensures Counts(c, Status(s, QAt(c, t, Site(k, false))))
  {
    var i, succ := Pc(s, t).level, Pc(s, t).cop.succ;
    SuccessorWaits(c, s, t, succ);
    assert LocalOk(c, s, t) && QAt(c, w, Site(i, false)) == succ;
    assert CountOk(c, s, w, k) && CountOk(c, s, t, k);
    CountActor(c, s, w, k);
    assert QAt(c, w, Site(k, false)) != succ;
    hide Inv, ValidTree, AcqStep, RelStep;
  }

  /** Above it the new holder takes the counts over. */
  lemma DigitAbove(c: Tree, s: State, t: Thread, try: bool, w: Thread, k: nat)
    requires ValidTree(c) && Inv(c, s) && Pc(s, t).Climb? && Pc(s, t).cop.Pass?
             && Actor(s, Pc(s, t).cop.succ) == Some(w)
    requires Pc(s, t).level < k && k + 1 < c.levels
    ensures Status(Step(c, s, t, try), QAt(c, w, Site(k, false))) == Status(s, QAt(c, t, Site(k, false)))
  {
    var i, succ := Pc(s, t).level, Pc(s, t).cop.succ;
    SuccessorWaits(c, s, t, succ);
    assert LocalOk(c, s, t) && QAt(c, w, Site(i, false)) == succ;
    AncestorsMerge(c, t, w, i, k - 1);
    CountActor(c, s, t, k);
    hide Inv, ValidTree, AcqStep, RelStep;
  }

  /** A pass hands over a strictly larger number than the passing thread had. */
  lemma PassRaisesRadix(c: Tree, s: State, t: Thread, try: bool)
    requires ValidTree(c) && Inv(c, s) && Pc(s, t).Climb? && Pc(s, t).cop.Pass?
    ensures var s' := Step(c, s, t, try);
            var w := Actor(s, Pc(s, t).cop.succ);
            && w.Some? && Owner(s', Root(c)) == w && s'.served == s.served
            && Radix(c, s', w.value, 0) >= Radix(c, s, t, 0) + 1
            && Limit(c, s', w.value) == Radix(c, s', w.value, 0)
  {
    var s', i, succ := Step(c, s, t, try), Pc(s, t).level, Pc(s, t).cop.succ;
    SuccessorWaits(c, s, t, succ);
    var w := Actor(s, succ).value;
    assert LocalOk(c, s, t);
    InsideOwnsRoot(c, s, t);
    assert QAt(c, w, Site(i, false)) == succ;
    hide Inv;
    assert Status(s', succ) == Pc(s, t).cop.count + 1 && Pc(s', w) == Pc(s, w) && Pc(s, w).Acq?;
    assert Owner(s', Root(c)) == Some(w) && s'.served == s.served;
    hide Step;
    forall k: nat | k < i
      ensures Status(s', QAt(c, w, Site(k, false))) == COHORT_START
      ensures Counts(c, Status(s, QAt(c, t, Site(k, false))))
    {
      DigitBelow(c, s, t, try, w, k);
    }
    forall k: nat | i < k && k + 1 < c.levels
      ensures Status(s', QAt(c, w, Site(k, false))) == Status(s, QAt(c, t, Site(k, false)))
    {
      DigitAbove(c, s, t, try, w, k);
    }
    RadixCarry(c, s, s', t, w, i, 0);
  }

  /** Nobody owns the root: a step either leaves it so or takes it, starting a new count. */
  lemma FreeRootServed(c: Tree, s: State, t: Thread, try: bool)
    requires ValidTree(c) && Inv(c, s) && ServedOk(c, s) && Owner(s, Root(c)).None?
    ensures ServedOk(c, Step(c, s, t, try))
  {
    var s' := Step(c, s, t, try);
    StepKeepsInv(c, s, t, try);
    assert OwnerOk(c, s, Root(c), t) && LocalOk(c, s, t);
    if Inside(Pc(s', t)) { InsideOwnsRoot(c, s', t); }
    if Counted(c, s', t) { CountedRadix(c, s', t); }
    FreeRootOwner(c, s, t, try);
    hide Inv, Step, Radix;
  }

  lemma GrantEffect(s: State, t: Thread, h: HNode, succ: QNode, v: int)
    ensures var s' := Grant(s, t, h, succ, v);
            && s'.served == s.served && s'.pc == s.pc
            && forall x ::
                 Owner(s', x) == if Owner(s, x) == Some(t) && h.level <= x.level then Actor(s, succ) else Owner(s, x)
  {
  }

  /** The root stays unowned, or `t` takes it and is the first it serves. */
  predicate StillFreeOrTaken(c: Tree, s': State, t: Thread) {
    var entered := if Pc(s', t).Critical? then 1 else 0;
    && s'.served == entered
    && (Owner(s', Root(c)).None?
        || (Owner(s', Root(c)) == Some(t) && (Pc(s', t).Critical? || Pc(s', t).TryFlag?)))
  }

  lemma FreeRootSwap(c: Tree, s: State, t: Thread, try: bool)
    requires ValidTree(c) && Inv(c, s) && Owner(s, Root(c)).None? && s.served == 0
    requires Pc(s, t).Acq? && (Pc(s, t).op.Swap? || Pc(s, t).op.TryCas?)
    ensures StillFreeOrTaken(c, Step(c, s, t, try), t)
  {
    assert LocalOk(c, s, t);
    assert AtRoot(c, Pc(s, t).site) <==> HAt(c, t, Pc(s, t).site) == Root(c);
    hide Inv, LocalOk, QAt, HAt, ValidTree, Root, RelStep, ClimbStep;
    if Pc(s, t).op.Swap? { return; }
  }

  lemma FreeRootAcq(c: Tree, s: State, t: Thread, try: bool)
    requires ValidTree(c) && Inv(c, s) && Owner(s, Root(c)).None? && s.served == 0 && Pc(s, t).Acq?
    requires !Pc(s, t).op.Swap? && !Pc(s, t).op.TryCas?
    ensures StillFreeOrTaken(c, Step(c, s, t, try), t)
  {
    assert Pc(s, t).op.Spin? && Status(s, QAt(c, t, Pc(s, t).site)) != WAIT ==>
           !AtRoot(c, Pc(s, t).site) && Status(s, QAt(c, t, Pc(s, t).site)) == ACQUIRE_PARENT by {
      assert LocalOk(c, s, t);
      assert OwnerOk(c, s, Root(c), t);
    }
    hide Inv, LocalOk, QAt, HAt, ValidTree, Root, RelStep, ClimbStep, Seize;
    match Pc(s, t).op
    case Spin => return;
    case _ => return;
  }

  lemma FreeRootHandoff(c: Tree, s: State, t: Thread, try: bool)
    requires ValidTree(c) && Inv(c, s) && Owner(s, Root(c)).None? && s.served == 0 && Pc(s, t).Rel?
             && Pc(s, t).rop.Handoff?
    ensures StillFreeOrTaken(c, Step(c, s, t, try), t)
  {
    hide Inv, QAt, HAt, ValidTree, AcqStep, ClimbStep;
    assert !Down(Pc(s, t).site).Critical?;
    hide Down, Root, AtRoot;
    GrantEffect(s.(served := 0), t, HAt(c, t, Pc(s, t).site), Pc(s, t).rop.succ, ReleaseValue(c, Pc(s, t).site));
    hide Grant;
  }

  lemma FreeRootRel(c: Tree, s: State, t: Thread, try: bool)
    requires ValidTree(c) && Inv(c, s) && Owner(s, Root(c)).None? && s.served == 0 && Pc(s, t).Rel?
    ensures StillFreeOrTaken(c, Step(c, s, t, try), t)
  {
    hide Inv, QAt, HAt, ValidTree, AcqStep, ClimbStep;
    assert !Down(Pc(s, t).site).Critical?;
    hide Down, Root, AtRoot;
    if Pc(s, t).rop.Handoff? { hide *; FreeRootHandoff(c, s, t, try); return; }
    hide Grant;
    match Pc(s, t).rop
    case UnlockCas => return;
    case _ => return;
  }

  lemma FreeRootSide(c: Tree, s: State, t: Thread, try: bool)
    requires ValidTree(c) && Owner(s, Root(c)).None? && s.served == 0
    requires Pc(s, t).Idle? || Pc(s, t).PeekLeaf? || Pc(s, t).PeekRoot? || Pc(s, t).SetFast? || Pc(s, t).ClearFast?
    ensures StillFreeOrTaken(c, Step(c, s, t, try), t)
  {
    hide AcqStep, ClimbStep, RelStep, ValidTree, Root;
  }

  lemma FreeRootOwner(c: Tree, s: State, t: Thread, try: bool)
    requires ValidTree(c) && Inv(c, s) && Owner(s, Root(c)).None? && s.served == 0
    ensures StillFreeOrTaken(c, Step(c, s, t, try), t)
  {
    if Inside(Pc(s, t)) { InsideOwnsRoot(c, s, t); }
    hide Inv, Step, ValidTree;
    match Pc(s, t)
    case Acq(op, _) => if op.Swap? || op.TryCas? { FreeRootSwap(c, s, t, try); } else { FreeRootAcq(c, s, t, try); }
    case Rel(_, _) => FreeRootRel(c, s, t, try);
    case _ => if !Inside(Pc(s, t)) { FreeRootSide(c, s, t, try); }
  }

  /** The root's owner sees that it has been granted the lock. */
  lemma GrantedServed(c: Tree, s: State, t: Thread, try: bool)
    requires ValidTree(c) && Inv(c, s) && ServedOk(c, s) && Owner(s, Root(c)) == Some(t) && Pc(s, t).Acq?
    ensures ServedOk(c, Step(c, s, t, try))
  {
    var s' := Step(c, s, t, try);
    StepKeepsInv(c, s, t, try);
    OwnerOfRoot(c, s, t);
    assert LocalOk(c, s, t);
    assert s' == Goto(s, t, Critical);
    if !Took(s, t) { CountedRadix(c, s', t); }
    hide Inv, Step, LocalOk, ValidTree;
    if Counted(c, s, t) { RadixFrame(c, s, s', t, 0); }
    hide Radix;
  }

  /** What a thread inside the lock does next, short of passing it on. */
  predicate InsideMoves(s: State, s': State, t: Thread) {
    && s'.owner == s.owner && s'.status == s.status
    && s'.served == (if Pc(s, t).TryFlag? then s.served + 1 else s.served)
    && Took(s', t) == (Took(s, t) || Pc(s, t).TryFlag?)
    && (Pc(s, t).TryFlag? ==> Pc(s', t).Critical?)
    && (Pc(s, t).Critical? ==> Pc(s', t).ReadFlag?)
    && (Pc(s, t).ReadFlag? || Pc(s, t).Climb? ==> Pc(s', t).Climb? || Pc(s', t).Rel?)
  }

  lemma InsideSide(c: Tree, s: State, t: Thread, try: bool)
    requires c.levels >= 1 && (Pc(s, t).TryFlag? || Pc(s, t).Critical? || Pc(s, t).ReadFlag?)
    ensures InsideMoves(s, Step(c, s, t, try), t)
  {
    hide AcqStep, RelStep, ClimbStep;
  }

  lemma InsideStep(c: Tree, s: State, t: Thread, try: bool)
    requires c.levels >= 1 && Inside(Pc(s, t)) && (Pc(s, t).Climb? ==> !Pc(s, t).cop.Pass?)
    ensures InsideMoves(s, Step(c, s, t, try), t)
  {
    hide Step;
    if Pc(s, t).Climb? { ClimbProbes(c, s, t, try); } else { InsideSide(c, s, t, try); }
  }

  /** The root's owner moves through its critical section and looks for a successor. */
  lemma HolderServed(c: Tree, s: State, t: Thread, try: bool)
    requires ValidTree(c) && Inv(c, s) && ServedOk(c, s) && Owner(s, Root(c)) == Some(t)
    requires Inside(Pc(s, t)) && (Pc(s, t).Climb? ==> !Pc(s, t).cop.Pass?)
    ensures ServedOk(c, Step(c, s, t, try))
  {
    var s' := Step(c, s, t, try);
    InsideStep(c, s, t, try);
    assert LocalOk(c, s, t);
    if Counted(c, s, t) {
      CountedRadix(c, s, t);
      RadixFrame(c, s, s', t, 0);
    }
    PowPositive(c.threshold, Root(c).level);
    hide Inv, Step, Radix, QAt, HAt, Pow, ValidTree;
  }

  lemma RootHandoffServed(c: Tree, s: State, t: Thread, try: bool)
    requires ValidTree(c) && Inv(c, s) && Owner(s, Root(c)) == Some(t) && Pc(s, t).Rel? && Pc(s, t).rop.Handoff?
    ensures ServedOk(c, Step(c, s, t, try))
  {
    var s' := Step(c, s, t, try);
    var succ := Pc(s, t).rop.succ;
    OwnerOfRoot(c, s, t);
    ReleaserHeads(c, s, t);
    SuccessorWaits(c, s, t, succ);
    assert Anc(c, t, c.levels - 1) == Root(c);
    hide Inv, ValidTree;
    HandoffGrants(c, s, t, try, Actor(s, succ).value);
    assert s'.served == 0 by { hide AcqStep, ClimbStep; }
    hide Step, Radix, Pow;
  }

  lemma RootUnlockServed(c: Tree, s: State, t: Thread, try: bool)
    requires ValidTree(c) && Inv(c, s) && ServedOk(c, s) && Owner(s, Root(c)) == Some(t) && Pc(s, t).Rel?
    requires !Pc(s, t).rop.Handoff?
    ensures ServedOk(c, Step(c, s, t, try))
  {
    OwnerOfRoot(c, s, t);
    ReleaserHeads(c, s, t);
    hide Inv, ValidTree, AcqStep, ClimbStep, Grant, Radix, Pow;
  }

  lemma StepServed(c: Tree, s: State, t: Thread, try: bool)
    requires ValidTree(c) && Inv(c, s) && ServedOk(c, s)
    ensures ServedOk(c, Step(c, s, t, try))
  {
    if Owner(s, Root(c)).None? {
      FreeRootServed(c, s, t, try);
    } else if Owner(s, Root(c)) != Some(t) {
      OtherUnaffected(c, s, t, try, Owner(s, Root(c)).value);
      OtherLimit(c, s, t, try, Owner(s, Root(c)).value);
      hide Inv, Step, Limit;
    } else {
      OwnerOfRoot(c, s, t);
      hide Inv, ServedOk, Step;
      if Pc(s, t).Rel? {
        if Pc(s, t).rop.Handoff? { RootHandoffServed(c, s, t, try); } else { RootUnlockServed(c, s, t, try); }
      } else if Pc(s, t).Climb? && Pc(s, t).cop.Pass? {
        PassServed(c, s, t, try);
      } else if Pc(s, t).Acq? {
        GrantedServed(c, s, t, try);
      } else {
        HolderServed(c, s, t, try);
      }
    }
  }

  lemma PassServed(c: Tree, s: State, t: Thread, try: bool)
    requires ValidTree(c) && Inv(c, s) && ServedOk(c, s) && Owner(s, Root(c)) == Some(t)
    requires Pc(s, t).Climb? && Pc(s, t).cop.Pass?
    ensures ServedOk(c, Step(c, s, t, try))
  {
    PassRaisesRadix(c, s, t, try);
    hide Inv, Step, Radix;
  }

  /** Between two releases of the root at most threshold^(levels - 1) critical sections are entered. */
  lemma {:induction false} BoundedPassing(c: Tree, schedule: seq<Turn>)
    requires ValidTree(c)
    ensures ServedOk(c, Run(c, schedule))
    ensures Run(c, schedule).served <= Pow(c.threshold, c.levels - 1)
  {
    RunKeepsInv(c, schedule);
    if schedule != [] {
      var before, turn := schedule[..|schedule| - 1], schedule[|schedule| - 1];
      BoundedPassing(c, before);
      RunKeepsInv(c, before);
      hide Inv, ServedOk, Step;
      StepServed(c, Run(c, before), turn.t, turn.try);
      ServedBound(c, Run(c, schedule));
    } else {
      PowPositive(c.threshold, c.levels - 1);
    }
  }

  /** Below the root a thread inside the lock always carries a pass count in [1, threshold]. */
  lemma CountsInRange(c: Tree, schedule: seq<Turn>, t: Thread, i: nat)
    requires ValidTree(c) && Inside(Pc(Run(c, schedule), t)) && !Fast(Run(c, schedule), t) && i + 1 < c.levels
    ensures 1 <= Status(Run(c, schedule), QAt(c, t, Site(i, false))) <= c.threshold
  {
    RunKeepsInv(c, schedule);
    assert CountOk(c, Run(c, schedule), t, i) && LocalOk(c, Run(c, schedule), t);
    hide Run, Inv;
  }
}
