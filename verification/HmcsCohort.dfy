/**
 The hierarchical lock stays in the cohort: whoever came in through its leaf gives up the root only
 after each level below it has run out, and otherwise passes the root, with every tree node on the
 way, straight to the next thread of the lowest cohort that has not.
 */
module HmcsCohort {
  import opened Cells
  import opened Hmcs
  import opened HmcsQuiet
  import opened HmcsLeave
  import opened HmcsRuns
  import opened HmcsPassing
  import opened HmcsCalls

  /** The cohort of `t` at level `j` has run out: its pass count is used up, or nobody is linked behind. */
  predicate RunsOut(c: Tree, s: State, t: Thread, j: nat) {
    var q := QAt(c, t, Site(j, false));
    Status(s, q) == c.threshold || Next(s, q).None?
  }

  /** At one of its instructions since it left the critical section, `t` found level `j` run out. */
  predicate FoundOut(c: Tree, schedule: seq<Turn>, t: Thread, j: nat)
    requires c.levels >= 1
  {
    if schedule == [] then false
    else
      var before, u := schedule[..|schedule| - 1], schedule[|schedule| - 1];
      if u.t != t then FoundOut(c, before, t, j)
      else !Pc(Run(c, before), t).Critical? && (FoundOut(c, before, t, j) || RunsOut(c, Run(c, before), t, j))
  }

  // ---------------------------------------------------------------- on the way up every level has run out

  /** The levels a releasing thread has left behind. */
  predicate Passed(c: Tree, pc: PC, j: nat) {
    match pc
    case Climb(_, i) => j < i
    case Rel(_, a) => AtRoot(c, a) && !a.fast && j + 1 < c.levels
    case _ => false
  }

  lemma ClimbOn(c: Tree, s: State, t: Thread, try: bool, j: nat)
    requires c.levels >= 1 && LocalOk(c, s, t) && Pc(s, t).Climb? && Passed(c, Pc(Step(c, s, t, try), t), j)
    ensures Passed(c, Pc(s, t), j) || RunsOut(c, s, t, j)
  {
    hide AcqStep, RelStep, Grant, QAt, HAt;
    match Pc(s, t).cop
    case ReadCount => return;
    case ReadSucc(_) => return;
    case Pass(_, _) => return;
  }

  lemma ReleaseOn(c: Tree, s: State, t: Thread, try: bool, j: nat)
    requires c.levels >= 1 && LocalOk(c, s, t) && Pc(s, t).Rel? && Passed(c, Pc(Step(c, s, t, try), t), j)
    ensures Passed(c, Pc(s, t), j)
  {
    hide AcqStep, ClimbStep, Grant, QAt, HAt;
    match Pc(s, t).rop
    case Unlock => return;
    case UnlockCas => return;
    case UnlockSpin => return;
    case Handoff(_) => return;
  }

  lemma StartPassesNone(c: Tree, s: State, t: Thread, try: bool, j: nat)
    requires c.levels >= 1 && Pc(s, t).ReadFlag?
    ensures !Passed(c, Pc(Step(c, s, t, try), t), j)
  {
    hide AcqStep, ClimbStep, RelStep;
  }

  lemma EntryPassesNone(c: Tree, s: State, t: Thread, try: bool, j: nat)
    requires c.levels >= 1 && LocalOk(c, s, t) && !Pc(s, t).Climb? && !Pc(s, t).Rel? && !Pc(s, t).ReadFlag?
    ensures !Passed(c, Pc(Step(c, s, t, try), t), j)
  {
    match Pc(s, t)
    case Idle => hide AcqStep, ClimbStep, RelStep; return;
    case PeekLeaf(_) => LookMoves(c, s, t, try); hide Step; return;
    case PeekRoot(_) => LookMoves(c, s, t, try); hide Step; return;
    case Acq(op, a) => AcqFlag(c, s, t); AcqMoves(c, s, t, op, a); hide AcqStep, ClimbStep, RelStep, LocalOk; return;
    case _ => SideLeads(c, s, t, try); hide Step; return;
  }

  lemma PassedOn(c: Tree, s: State, t: Thread, try: bool, j: nat)
    requires c.levels >= 1 && LocalOk(c, s, t) && Passed(c, Pc(Step(c, s, t, try), t), j)
    ensures !Pc(s, t).Critical? && (Passed(c, Pc(s, t), j) || RunsOut(c, s, t, j))
  {
    hide Step, LocalOk, RunsOut;
    if Pc(s, t).Climb? {
      ClimbOn(c, s, t, try, j);
    } else if Pc(s, t).Rel? {
      ReleaseOn(c, s, t, try, j);
    } else if Pc(s, t).ReadFlag? {
      StartPassesNone(c, s, t, try, j);
    } else {
      EntryPassesNone(c, s, t, try, j);
    }
  }

  lemma {:induction false} LeftBehindRanOut(c: Tree, schedule: seq<Turn>, t: Thread, j: nat)
    requires ValidTree(c) && Passed(c, Pc(Run(c, schedule), t), j)
    ensures FoundOut(c, schedule, t, j)
  {
    if schedule != [] {
      var before, u := schedule[..|schedule| - 1], schedule[|schedule| - 1];
      var s := Run(c, before);
      RunKeepsInv(c, before);
      assert LocalOk(c, s, t) && c.levels >= 1;
      hide Inv, ValidTree, Step, LocalOk, Passed, RunsOut;
      if u.t != t {
        OthersKeepCall(c, s, u.t, u.try, t);
        LeftBehindRanOut(c, before, t, j);
      } else {
        PassedOn(c, s, t, u.try, j);
        if Passed(c, Pc(s, t), j) { LeftBehindRanOut(c, before, t, j); }
      }
    }
  }

  // ---------------------------------------------------------------- what happens when the root changes hands

  /** The root, and the lock, have gone from `t` to the thread waiting right behind it at level `i`. */
  ghost predicate PassedAt(c: Tree, s: State, s': State, t: Thread, w: Thread, i: nat)
    requires c.levels >= 1
  {
    var q := QAt(c, t, Site(i, false));
    && i + 1 < c.levels && 1 <= Status(s, q) < c.threshold && Next(s, q).Some?
    && Actor(s, Next(s, q).value) == Some(w) && w != t && Anc(c, w, i) == Anc(c, t, i)
    && Owner(s', Root(c)) == Some(w) && Status(s', Next(s, q).value) == Status(s, q) + 1 && s'.served == s.served
    && (forall b: bool :: Pc(Step(c, s', w, b), w).Critical?)
  }

  lemma NextEnters(c: Tree, s: State, w: Thread, try: bool)
    requires c.levels >= 1 && Pc(s, w).Acq? && Pc(s, w).op.Spin?
    requires Status(s, QAt(c, w, Pc(s, w).site)) < ACQUIRE_PARENT
    ensures Pc(Step(c, s, w, try), w).Critical?
  {
    hide ClimbStep, RelStep, QAt, HAt, AtRoot;
  }

  lemma PassServes(c: Tree, s: State, t: Thread, try: bool)
    requires c.levels >= 1 && Pc(s, t).Climb? && Pc(s, t).cop.Pass?
    ensures Step(c, s, t, try).served == s.served
  {
    hide AcqStep, RelStep, QAt, HAt;
  }

  /** A pass below the root gives the root and the lock to the successor. */
  lemma PassPasses(c: Tree, s: State, t: Thread, try: bool)
    requires ValidTree(c) && Inv(c, s) && Pc(s, t).Climb? && Pc(s, t).cop.Pass?
    ensures Actor(s, Pc(s, t).cop.succ).Some?
    ensures PassedAt(c, s, Step(c, s, t, try), t, Actor(s, Pc(s, t).cop.succ).value, Pc(s, t).level)
  {
    var i, succ, s' := Pc(s, t).level, Pc(s, t).cop.succ, Step(c, s, t, try);
    SuccessorWaits(c, s, t, succ);
    var w := Actor(s, succ).value;
    assert LocalOk(c, s, t) && CountOk(c, s, t, i) && c.levels >= 1;
    InsideOwnsRoot(c, s, t);
    hide Inv, ValidTree, Step, Grants;
    PassServes(c, s, t, try);
    PassGrants(c, s, t, try, w);
    PassEffect(c, s, s', t, w, succ, Pc(s, t).cop.count + 1);
    forall b: bool ensures Pc(Step(c, s', w, b), w).Critical? { NextEnters(c, s', w, b); }
  }

  lemma PassEffect(c: Tree, s: State, s': State, t: Thread, w: Thread, succ: QNode, v: int)
    requires c.levels >= 1 && Grants(c, s, s', t, w, succ, v) && Pc(s, t).Climb? && Pc(s, t).level < c.levels && w != t
    requires Owner(s, Root(c)) == Some(t)
    ensures Owner(s', Root(c)) == Some(w) && Status(s', succ) == v && Pc(s', w) == Pc(s, w)
  {
    hide QAt, Down;
  }

  /** Before a pass or a full release the holder keeps the root. */
  lemma HolderKeepsRoot(c: Tree, s: State, t: Thread, try: bool)
    requires c.levels >= 1 && !Pc(s, t).Rel? && (Pc(s, t).Climb? ==> !Pc(s, t).cop.Pass?)
    requires Pc(s, t).Acq? ==> Pc(s, t).op.Spin?
    ensures Step(c, s, t, try).owner == s.owner
  {
    var pc := Pc(s, t);
    hide Step;
    if pc.Acq? {
      AcqWritesLink(c, s, t, try);
    } else if pc.Climb? {
      ClimbProbes(c, s, t, try);
    } else if pc.Idle? || pc.PeekLeaf? || pc.PeekRoot? || pc.SetFast? {
      EntrySideStep(c, s, t, try);
    } else {
      ExitSideStep(c, s, t, try);
    }
  }

  lemma RootReleased(c: Tree, s: State, t: Thread, try: bool)
    requires c.levels >= 1 && Pc(s, t).Rel? && AtRoot(c, Pc(s, t).site)
    requires Owner(Step(c, s, t, try), Root(c)) != Owner(s, Root(c))
    ensures Step(c, s, t, try).served == 0
  {
    hide AcqStep, ClimbStep, QAt, HAt;
    match Pc(s, t).rop
    case UnlockCas => return;
    case Handoff(_) => return;
    case _ => return;
  }

  /** When a thread that came in through its leaf gives up the root, every level below the root has been
      found run out, and a new cohort begins; or it has passed the lock to the thread behind it at a
      level that has not run out, after every level below that one has. */
  lemma CohortFirst(c: Tree, schedule: seq<Turn>, t: Thread, try: bool)
    requires ValidTree(c) && !Took(Run(c, schedule), t)
    requires Owner(Run(c, schedule), Root(c)) == Some(t)
    requires Owner(Step(c, Run(c, schedule), t, try), Root(c)) != Some(t)
    ensures var s, s' := Run(c, schedule), Step(c, Run(c, schedule), t, try);
            || (s'.served == 0 && forall j: nat :: j + 1 < c.levels ==> FoundOut(c, schedule, t, j))
            || exists i: nat, w: Thread :: PassedAt(c, s, s', t, w, i)
                && forall j: nat :: j < i ==> FoundOut(c, schedule, t, j)
  {
    var s := Run(c, schedule);
    RunKeepsInv(c, schedule);
    OwnerOfRoot(c, s, t);
    assert LocalOk(c, s, t) && c.levels >= 1;
    hide Inv, Step, FoundOut, PassedAt, Counted;
    if Pc(s, t).Climb? && Pc(s, t).cop.Pass? {
      forall j: nat | j < Pc(s, t).level ensures FoundOut(c, schedule, t, j) { LeftBehindRanOut(c, schedule, t, j); }
      PassPasses(c, s, t, try);
    } else if Pc(s, t).Rel? {
      forall j: nat | j + 1 < c.levels ensures FoundOut(c, schedule, t, j) { LeftBehindRanOut(c, schedule, t, j); }
      RootReleased(c, s, t, try);
    } else {
      HolderKeepsRoot(c, s, t, try);
    }
  }
}
