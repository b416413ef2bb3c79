/**
 The list surgery of zm_hzdptr.h, run by one thread while the hazard slots stay as they are: the second
 stage of scan in place on linked lists, and scan, helpscan, retire and allocate on the hazard list.
 */
module Hazard {
  import opened ScanSpec
  import opened SdList

  // ---------------------------------------------------------------- stage 2 of a scan, in place

  /** One entry of stage 2: the `j`-th cell of `rlist` stays if `plist` has an equal entry, which is used up. */
  method MatchOne(rlist: List, plist: List, node: Node, ghost j: nat) returns (found: bool)
    requires rlist != plist && rlist.Valid() && plist.Valid() && j < |rlist.nodes| && rlist.nodes[j] == node
    modifies rlist, rlist.repr, plist, plist.repr
    ensures rlist.Valid() && plist.Valid()
    ensures rlist.repr == old(rlist.repr) && plist.repr == old(plist.repr)
    ensures found <==> node.data in old(plist.Contents())
    ensures plist.Contents() == RemoveFirst(old(plist.Contents()), node.data)
    ensures rlist.nodes == if found then old(rlist.nodes) else old(rlist.nodes)[..j] + old(rlist.nodes)[j + 1..]
  {
    hide Kept, RemoveFirst, List.Linked;
    Apart(rlist, plist);
    found := plist.Remove(node.data);
    assert rlist.Valid();
    if !found {
      rlist.RmNode(node, j);
      assert plist.Valid();
    }
  }

  /** What stage 2 will leave: of the list `ds`, the first `j` entries are kept already. */
  ghost function Pending(ds: seq<Data>, j: nat, hazards: seq<Data>): seq<Data>
    requires j <= |ds|
  {
    ds[..j] + Kept(ds[j..], hazards)
  }

  lemma PendingStarts(ds: seq<Data>, hazards: seq<Data>)
    ensures Pending(ds, 0, hazards) == Kept(ds, hazards)
  {
    assert ds[0..] == ds;
  }

  lemma PendingEnds(ds: seq<Data>, hazards: seq<Data>)
    ensures Pending(ds, |ds|, hazards) == ds
  {
  }

  lemma PendingKeeps(ds: seq<Data>, j: nat, hazards: seq<Data>)
    requires j < |ds| && ds[j] in hazards
    ensures Pending(ds, j, hazards) == Pending(ds, j + 1, RemoveFirst(hazards, ds[j]))
  {
    assert ds[j..][0] == ds[j] && ds[j..][1..] == ds[j + 1..];
    assert ds[..j + 1] == ds[..j] + [ds[j]];
  }

  lemma PendingDrops(ds: seq<Data>, j: nat, hazards: seq<Data>, es: seq<Data>)
    requires j < |ds| && ds[j] !in hazards && es == ds[..j] + ds[j + 1..]
    ensures Pending(ds, j, hazards) == Pending(es, j, hazards)
  {
    assert ds[j..][0] == ds[j] && ds[j..][1..] == ds[j + 1..];
    assert es[..j] == ds[..j] && es[j..] == ds[j + 1..];
  }

  lemma WalkStarts(l: List)
    requires l.Valid()
    ensures l.head == SdList.At(l.nodes, 0)
  {
  }

  lemma WalkGoesOn(l: List, j: nat)
    requires l.Valid() && j < |l.nodes|
    ensures l.nodes[j].next == SdList.At(l.nodes, j + 1)
  {
    NextCell(l, j);
  }

  /** One turn of stage 2: the entry is matched, and the walk goes on behind it. */
  method MatchNext(rlist: List, plist: List, node: Node, ghost j: nat) returns (found: bool, next: Node?)
    requires rlist != plist && rlist.Valid() && plist.Valid() && j < |rlist.nodes| && rlist.nodes[j] == node
    modifies rlist, rlist.repr, plist, plist.repr
    ensures rlist.Valid() && plist.Valid()
    ensures rlist.repr == old(rlist.repr) && plist.repr == old(plist.repr)
    ensures var k := if found then j + 1 else j;
            && |rlist.nodes| - k == |old(rlist.nodes)| - j - 1
            && next == SdList.At(rlist.nodes, k)
            && Pending(rlist.Contents(), k, plist.Contents()) == old(Pending(rlist.Contents(), j, plist.Contents()))
  {
    hide Kept, RemoveFirst, Pending, LinkedAt, List.Linked, List.Valid;
    WalkGoesOn(rlist, j);
    next := node.next;
    ghost var ds, hazards := rlist.Contents(), plist.Contents();
    found := MatchOne(rlist, plist, node, j);
    if found {
      PendingKeeps(ds, j, hazards);
    } else {
      SameHazards(hazards, node.data);
      PendingDrops(ds, j, hazards, rlist.Contents());
    }
  }

  lemma SameHazards(hazards: seq<Data>, d: Data)
    requires d !in hazards
    ensures RemoveFirst(hazards, d) == hazards
  {
    hide RemoveFirst;
  }

  /** Stage 2: each retired entry uses up one equal entry of `plist`, or is dropped. */
  method Match(rlist: List, plist: List)
    requires rlist != plist && rlist.Valid() && plist.Valid()
    modifies rlist, rlist.repr, plist, plist.repr
    ensures rlist.Valid() && plist.Valid()
    ensures rlist.Contents() == Kept(old(rlist.Contents()), old(plist.Contents()))
    ensures rlist.repr == old(rlist.repr) && plist.repr == old(plist.repr)
  {
    hide Kept, Pending, List.Linked, List.Valid;
    ghost var expected := Kept(rlist.Contents(), plist.Contents());
    PendingStarts(rlist.Contents(), plist.Contents());
    WalkStarts(rlist);
    var node := rlist.head;
    ghost var j := 0;
    while node != null
      invariant rlist.Valid() && plist.Valid()
      invariant rlist.repr == old(rlist.repr) && plist.repr == old(plist.repr)
      invariant j <= |rlist.nodes| && node == SdList.At(rlist.nodes, j)
      invariant Pending(rlist.Contents(), j, plist.Contents()) == expected
      decreases |rlist.nodes| - j
    {
      var found, next := MatchNext(rlist, plist, node, j);
      j := if found then j + 1 else j;
      node := next;
    }
    PendingEnds(rlist.Contents(), plist.Contents());
  }

  // ---------------------------------------------------------------- the hazard list

  /** The slots of a record: ZM_HZDPTR_NUM of them. */
  type Slots = s: seq<Data> | |s| == 2 witness [NULL, NULL]

  /** A record of the hazard list: the slots of its thread and the list of what it has retired. */
  class Record {
    var hzdptrs: Slots
    var active: bool
    const rlist: List
    const next: Record?  // written before the record is in the list, and never again

    /** A new record: in use, slots null, nothing retired, in front of `behind`. */
    constructor (behind: Record?)
      ensures hzdptrs == [NULL, NULL] && active && next == behind
      ensures fresh(rlist) && rlist.Valid() && rlist.nodes == [] && rlist.repr == {}
    {
      var empty := new List();
      hzdptrs, active, rlist, next := [NULL, NULL], true, empty, behind;
    }
  }

  function NonNull(d: Data): seq<Data> { if d == NULL then [] else [d] }

  /** The non-null hazards of the first `n` records, in the order a scan reads them. */
  ghost function Hazards(rs: seq<Record>, n: nat): seq<Data>
    requires n <= |rs|
    reads rs`hzdptrs
  {
    if n == 0 then [] else Hazards(rs, n - 1) + NonNull(rs[n - 1].hzdptrs[0]) + NonNull(rs[n - 1].hzdptrs[1])
  }

  lemma HazardsNone(rs: seq<Record>)
    ensures Hazards(rs, 0) == []
  {
  }

  lemma HazardsOn(rs: seq<Record>, n: nat)
    requires n < |rs|
    ensures Hazards(rs, n + 1) == Hazards(rs, n) + NonNull(rs[n].hzdptrs[0]) + NonNull(rs[n].hzdptrs[1])
  {
  }

  lemma {:induction false} HazardsBounded(rs: seq<Record>, n: nat)
    requires n <= |rs|
    ensures |Hazards(rs, n)| <= 2 * n && NULL !in Hazards(rs, n)
  {
    if n > 0 { HazardsBounded(rs, n - 1); }
  }

  lemma {:induction false} HazardsHold(rs: seq<Record>, n: nat, k: nat, slot: nat)
    requires k < n <= |rs| && slot < 2 && rs[k].hzdptrs[slot] != NULL
    ensures rs[k].hzdptrs[slot] in Hazards(rs, n)
  {
    if k < n - 1 { HazardsHold(rs, n - 1, k, slot); }
  }

  /** What the retire lists of the first `n` records hold, as far as nobody uses the record. */
  ghost function Idle(flags: seq<bool>, lists: seq<seq<Data>>, n: nat): multiset<Data>
    requires n <= |flags| && n <= |lists|
  {
    if n == 0 then multiset{}
    else Idle(flags, lists, n - 1) + if flags[n - 1] then multiset{} else multiset(lists[n - 1])
  }

  lemma IdleNone(flags: seq<bool>, lists: seq<seq<Data>>)
    ensures Idle(flags, lists, 0) == multiset{}
  {
  }

  lemma IdleStep(flags: seq<bool>, lists: seq<seq<Data>>, n: nat)
    requires n < |flags| && n < |lists|
    ensures Idle(flags, lists, n + 1) == Idle(flags, lists, n) + if flags[n] then multiset{} else multiset(lists[n])
  {
  }

  /** The lists of records in use do not matter. */
  lemma {:induction false} SameIdle(flags: seq<bool>, lists: seq<seq<Data>>, others: seq<seq<Data>>, n: nat)
    requires n <= |flags| && n <= |lists| && n <= |others|
    requires forall k :: 0 <= k < n && !flags[k] ==> lists[k] == others[k]
    ensures Idle(flags, lists, n) == Idle(flags, others, n)
  {
    if n > 0 { SameIdle(flags, lists, others, n - 1); }
  }

  /** Nothing was dropped of an entry that hazards name at least as often as it was there. */
  ghost predicate Spares(all: multiset<Data>, hazards: multiset<Data>, dropped: multiset<Data>) {
    forall d :: all[d] <= hazards[d] ==> dropped[d] == 0
  }

  lemma SparesNone(all: multiset<Data>, hazards: multiset<Data>)
    ensures Spares(all, hazards, multiset{})
  {
  }

  lemma SparesBoth(all: multiset<Data>, held: multiset<Data>, hazards: multiset<Data>,
      dropped: multiset<Data>, more: multiset<Data>)
    requires Spares(all, hazards, dropped) && Spares(held, hazards, more) && held + dropped == all
    ensures Spares(all, hazards, dropped + more)
  {
  }

  /** One more step in the balance of entries kept and dropped. */
  lemma Balance(held: multiset<Data>, seen: multiset<Data>, dropped: multiset<Data>, spare: multiset<Data>,
      held': multiset<Data>, more: multiset<Data>, hazards: multiset<Data>)
    requires held + dropped == seen && held' + more == held + spare
    requires Spares(seen, hazards, dropped) && Spares(held + spare, hazards, more)
    ensures held' + (dropped + more) == seen + spare
    ensures Spares(seen + spare, hazards, dropped + more)
  {
    assert forall d :: seen[d] == held[d] + dropped[d] && (held' + more)[d] == (held + spare)[d];
    assert forall d :: (held' + (dropped + more))[d] == (seen + spare)[d];
  }

  /** An entry has moved from one list to another, which a scan has then reduced to `held`. */
  lemma MovedOne(given: seq<Data>, kept: seq<Data>, left: seq<Data>, more: seq<Data>, d: Data,
      held: multiset<Data>, dropped: multiset<Data>, hazards: multiset<Data>)
    requires given == [d] + left && more == kept + [d] && held + dropped == multiset(more)
    requires Spares(multiset(more), hazards, dropped)
    ensures held + multiset(left) + dropped == multiset(kept) + multiset(given)
    ensures Spares(multiset(kept) + multiset(given), hazards, dropped)
  {
    assert multiset(kept) + multiset(given) == multiset(more) + multiset(left);
    var all := multiset(more) + multiset(left);
    assert forall x :: all[x] == multiset(more)[x] + multiset(left)[x];
  }

  /** Of the first `n` records the idle ones but the `m`-th have an empty list, and no other list but the
      `m`-th has changed.  That one and what was `dropped` are its old entries and those of the idle
      lists, and nothing was dropped that the hazards cover. */
  ghost predicate Helped(lists: seq<seq<Data>>, lists': seq<seq<Data>>, flags: seq<bool>, hazards: multiset<Data>,
      n: nat, m: nat, dropped: multiset<Data>)
  {
    && n <= |lists'| == |lists| == |flags| && m < |lists|
    && (forall k :: 0 <= k < |lists| && k != m ==> lists'[k] == if k < n && !flags[k] then [] else lists[k])
    && var all := multiset(lists[m]) + Idle(flags, lists, n);
       multiset(lists'[m]) + dropped == all && Spares(all, hazards, dropped)
  }

  lemma HelpStarts(lists: seq<seq<Data>>, flags: seq<bool>, hazards: multiset<Data>, m: nat)
    requires |flags| == |lists| && m < |lists|
    ensures Helped(lists, lists, flags, hazards, 0, m, multiset{})
  {
  }

  /** The `n`-th record was busy, or its list has moved to the `m`-th, with `more` dropped on the way. */
  lemma HelpGoesOn(lists: seq<seq<Data>>, now: seq<seq<Data>>, next: seq<seq<Data>>, flags: seq<bool>,
      hazards: multiset<Data>, n: nat, m: nat, dropped: multiset<Data>, more: multiset<Data>)
    requires Helped(lists, now, flags, hazards, n, m, dropped) && n < |lists| && |next| == |now|
             && (n == m ==> flags[n])
    requires next == if flags[n] then now else now[n := []][m := next[m]]
    requires if flags[n] then more == multiset{}
             else
               && multiset(next[m]) + more == multiset(now[m]) + multiset(now[n])
               && Spares(multiset(now[m]) + multiset(now[n]), hazards, more)
    ensures Helped(lists, next, flags, hazards, n + 1, m, dropped + more)
  {
    IdleStep(flags, lists, n);
    hide Idle, Spares;
    if !flags[n] {
      var seen := multiset(lists[m]) + Idle(flags, lists, n);
      Balance(multiset(now[m]), seen, dropped, multiset(lists[n]), multiset(next[m]), more, hazards);
    } else {
      assert dropped + more == dropped;
    }
  }

  /** A scan of the `m`-th list, which is in use, and then a helpscan. */
  lemma HelpedAfterScan(lists: seq<seq<Data>>, scanned: seq<seq<Data>>, now: seq<seq<Data>>, flags: seq<bool>,
      hazards: multiset<Data>, n: nat, m: nat, dropped: multiset<Data>)
    requires n <= |lists| && m < |lists| && |scanned| == |lists| && scanned == lists[m := scanned[m]]
    requires multiset(scanned[m]) == multiset(lists[m]) * hazards
    requires Helped(scanned, now, flags, hazards, n, m, dropped) && flags[m]
    ensures Helped(lists, now, flags, hazards, n, m, (multiset(lists[m]) - hazards) + dropped)
  {
    SameIdle(flags, lists, scanned, n);
    ScanBalance(multiset(lists[m]), hazards);
    hide Idle, Spares;
    Balance(multiset(scanned[m]), multiset(lists[m]), multiset(lists[m]) - hazards, Idle(flags, lists, n),
            multiset(now[m]), dropped, hazards);
  }

  /** The `m`-th list has kept no entry more often than hazards name it, beyond what has come to it from
      idle records. */
  ghost predicate OnlyCovered(lists: seq<seq<Data>>, now: seq<seq<Data>>, flags: seq<bool>, hazards: multiset<Data>,
      n: nat, m: nat)
  {
    && n <= |lists| == |flags| && m < |now|
    && var idle := Idle(flags, lists, n);
       forall d :: multiset(now[m])[d] <= hazards[d] + idle[d]
  }

  lemma CoveredAfterScan(lists: seq<seq<Data>>, scanned: seq<seq<Data>>, now: seq<seq<Data>>, flags: seq<bool>,
      hazards: multiset<Data>, n: nat, m: nat, dropped: multiset<Data>)
    requires n <= |lists| && m < |lists| && |scanned| == |lists| && scanned == lists[m := scanned[m]]
    requires multiset(scanned[m]) == multiset(lists[m]) * hazards
    requires Helped(scanned, now, flags, hazards, n, m, dropped) && flags[m]
    ensures OnlyCovered(lists, now, flags, hazards, n, m)
  {
    SameIdle(flags, lists, scanned, n);
    hide Idle, Spares;
    var idle := Idle(flags, lists, n);
    forall d ensures multiset(now[m])[d] <= hazards[d] + idle[d] {
      assert (multiset(now[m]) + dropped)[d] == (multiset(scanned[m]) + idle)[d];
    }
  }

  /** `count` is zm_hplist_length. */
  class Domain {
    var first: Record?
    var count: int
    ghost var records: seq<Record>

    ghost function RecordAt(i: int): Record?
      reads this
    {
      if 0 <= i < |records| then records[i] else null
    }

    /** The `i`-th record leads to the next. */
    ghost predicate ChainedAt(i: nat)
      reads this
    {
      i < |records| ==> records[i].next == RecordAt(i + 1)
    }

    /** The records are linked in order, each has its own list, and there are never more than counted. */
    ghost predicate Chain()
      reads this
    {
      && first == RecordAt(0) && |records| <= count
      && (forall i: nat :: ChainedAt(i))
      && (forall i, j :: 0 <= i < j < |records| ==> records[i] != records[j] && records[i].rlist != records[j].rlist)
    }

    ghost function Retired(): set<List>
      reads this
    {
      set r | r in records :: r.rlist
    }

    ghost function Cells(): set<Node>
      reads this, Retired()
    {
      set r, n | r in records && n in r.rlist.repr :: n
    }

    ghost predicate Valid()
      reads this, Retired(), Cells()
    {
      Chain() && forall r :: r in records ==> r.rlist.Valid()
    }

    ghost function Plist(): seq<Data>
      reads this, records`hzdptrs
    {
      Hazards(records, |records|)
    }

    /** The retire lists and the active flags, as values. */
    ghost function Lists(): (ls: seq<seq<Data>>)
      reads this, Retired()
      ensures |ls| == |records| && forall k :: 0 <= k < |records| ==> ls[k] == records[k].rlist.Contents()
    {
      seq(|records|, k requires 0 <= k < |records| reads this, Retired() => records[k].rlist.Contents())
    }

    ghost function Flags(): (fs: seq<bool>)
      reads this, records
      ensures |fs| == |records| && forall k :: 0 <= k < |records| ==> fs[k] == records[k].active
    {
      seq(|records|, k requires 0 <= k < |records| reads this, records => records[k].active)
    }

    constructor ()
      ensures Valid() && records == []
    {
      first, count, records := null, 0, [];
    }

    /** The lists of two records are apart. */
    lemma OwnLists(r: Record, q: Record)
      requires Valid() && r in records && q in records && r != q
      ensures r.rlist != q.rlist && r.rlist.repr !! q.rlist.repr
    {
      Apart(r.rlist, q.rlist);
    }

    /** A thread publishes a hazard: from then on every scan finds it. */
    method Publish(mine: Record, slot: nat, d: Data)
      requires Valid() && mine in records && slot < 2
      modifies mine`hzdptrs
      ensures Valid() && mine.hzdptrs == old(mine.hzdptrs)[slot := d]
      ensures d != NULL ==> d in Plist()
    {
      mine.hzdptrs := mine.hzdptrs[slot := d];
      if d != NULL {
        ghost var k :| 0 <= k < |records| && records[k] == mine;
        HazardsHold(records, |records|, k, slot);
      }
    }

    lemma StartsAt()
      requires Valid()
      ensures first == RecordAt(0)
    {
    }

    /** The record a walk has reached leads to the next one and to none it has seen. */
    lemma WalksOn(i: nat)
      requires Valid() && i < |records|
      ensures records[i].next == RecordAt(i + 1)
      ensures forall k :: 0 <= k < |records| && k != i ==> records[k] != records[i]
    {
      assert ChainedAt(i);
    }

    /** Stage 1 of a scan: the non-null hazards of all records. */
    method Collect(plist: List)
      requires Valid() && plist.Valid() && plist.nodes == [] && plist.repr == {} && plist !in Retired()
      modifies plist
      ensures Valid() && plist.Valid() && plist.Contents() == Plist() && fresh(plist.repr)
    {
      hide Valid, List.Valid, List.Linked, Hazards;
      StartsAt();
      HazardsNone(records);
      var cur := first;
      ghost var i := 0;
      while cur != null
        invariant i <= |records| && cur == RecordAt(i) && Valid()
        invariant plist.Valid() && plist.Contents() == Hazards(records, i)
        invariant fresh(plist.repr) && Cells() == old(Cells()) && plist.repr !! Cells()
        decreases |records| - i
      {
        WalksOn(i);
        HazardsOn(records, i);
        CollectOne(plist, cur);
        cur := cur.next;
        i := i + 1;
      }
    }

    /** The slots of one record. */
    method CollectOne(plist: List, r: Record)
      requires plist.Valid()
      modifies plist, plist.repr
      ensures plist.Valid() && fresh(plist.repr - old(plist.repr))
      ensures plist.Contents() == old(plist.Contents()) + NonNull(r.hzdptrs[0]) + NonNull(r.hzdptrs[1])
    {
      hide List.Linked;
      if r.hzdptrs[0] != NULL { plist.PushBack(r.hzdptrs[0]); }
      if r.hzdptrs[1] != NULL { plist.PushBack(r.hzdptrs[1]); }
    }

    /** zm_hzdptr_scan: the retire list keeps exactly its multiset intersection with the hazards, which
        is at most two entries per record. */
    method Scan(mine: Record)
      requires Valid() && mine in records
      modifies mine.rlist, mine.rlist.repr
      ensures Valid() && mine.rlist.Contents() == Kept(old(mine.rlist.Contents()), Plist())
      ensures multiset(mine.rlist.Contents()) == old(multiset(mine.rlist.Contents())) * multiset(Plist())
      ensures mine.rlist.length <= 2 * count && mine.rlist.repr == old(mine.rlist.repr)
    {
      hide List.Linked, List.Valid, Kept, Hazards, ChainedAt;
      ScanKeeps(mine.rlist.Contents());
      MatchOwn(mine);
      OwnLength(mine);
    }

    /** What a scan will keep. */
    lemma ScanKeeps(was: seq<Data>)
      requires Valid()
      ensures multiset(Kept(was, Plist())) == multiset(was) * multiset(Plist())
      ensures |Kept(was, Plist())| <= 2 * count
    {
      HazardsBounded(records, |records|);
      KeptSublist(was, Plist());
      KeptIsIntersection(was, Plist());
    }

    /** The two stages and the end of a scan. */
    method MatchOwn(mine: Record)
      requires Valid() && mine in records
      modifies mine.rlist, mine.rlist.repr
      ensures Valid() && mine.rlist.Contents() == Kept(old(mine.rlist.Contents()), Plist())
      ensures mine.rlist.repr == old(mine.rlist.repr)
    {
      hide List.Linked, Kept, Hazards, ChainedAt;
      forall r | r in records && r != mine ensures r.rlist != mine.rlist && r.rlist.repr !! mine.rlist.repr {
        OwnLists(r, mine);
      }
      var plist := new List();
      Collect(plist);
      Match(mine.rlist, plist);
      plist.Free();
    }

    /** The length of a retire list is the number of its entries. */
    lemma OwnLength(r: Record)
      requires Valid() && r in records
      ensures r.rlist.length == |r.rlist.Contents()|
    {
    }

    /** zm_sdlist_push_back on a retire list. */
    method PushOwn(mine: Record, d: Data)
      requires Valid() && mine in records
      modifies mine.rlist, mine.rlist.repr
      ensures Valid() && mine.rlist.Contents() == old(mine.rlist.Contents()) + [d]
      ensures fresh(mine.rlist.repr - old(mine.rlist.repr))
    {
      hide List.Linked, ChainedAt;
      forall r | r in records && r != mine ensures r.rlist != mine.rlist && r.rlist.repr !! mine.rlist.repr {
        OwnLists(r, mine);
      }
      mine.rlist.PushBack(d);
    }

    /** zm_sdlist_pop_front on a retire list that is not empty. */
    method PopOwn(mine: Record) returns (d: Data)
      requires Valid() && mine in records && mine.rlist.length > 0
      modifies mine.rlist, mine.rlist.repr
      ensures Valid() && old(mine.rlist.Contents()) == [d] + mine.rlist.Contents()
      ensures mine.rlist.repr == old(mine.rlist.repr)
    {
      hide List.Linked, ChainedAt;
      forall r | r in records && r != mine ensures r.rlist != mine.rlist && r.rlist.repr !! mine.rlist.repr {
        OwnLists(r, mine);
      }
      d := mine.rlist.PopFront();
    }

    /** A full retire list is scanned; `dropped` is what that removed. */
    method ScanIfFull(mine: Record) returns (ghost dropped: multiset<Data>)
      requires Valid() && mine in records
      modifies mine.rlist, mine.rlist.repr
      ensures Valid() && mine.rlist.length <= 2 * count && mine.rlist.repr == old(mine.rlist.repr)
      ensures multiset(mine.rlist.Contents()) + dropped == old(multiset(mine.rlist.Contents()))
      ensures Spares(old(multiset(mine.rlist.Contents())), multiset(Plist()), dropped)
    {
      hide Kept, Hazards, Valid;
      dropped := multiset{};
      ghost var before, hazards := multiset(mine.rlist.Contents()), multiset(Plist());
      SparesNone(before, hazards);
      if mine.rlist.length >= 2 * count {
        dropped := before - hazards;
        Scan(mine);
        ScanBalance(before, hazards);
      }
    }

    /** The first entry of `r`'s retire list moves to the end of `mine`'s. */
    method MoveFirst(r: Record, mine: Record) returns (ghost d: Data)
      requires Valid() && r in records && mine in records && r != mine && r.rlist.length > 0
      modifies r.rlist, r.rlist.repr, mine.rlist, mine.rlist.repr
      ensures Valid() && r.rlist.repr == old(r.rlist.repr) && fresh(mine.rlist.repr - old(mine.rlist.repr))
      ensures old(r.rlist.Contents()) == [d] + r.rlist.Contents()
      ensures mine.rlist.Contents() == old(mine.rlist.Contents()) + [d]
    {
      OwnLists(r, mine);
      hide Valid, Hazards;
      var first := PopOwn(r);
      PushOwn(mine, first);
      d := first;
    }

    /** One entry moves from `r`'s retire list to `mine`'s, which is scanned if that makes it full. */
    method MoveOne(r: Record, mine: Record) returns (ghost dropped: multiset<Data>)
      requires Valid() && r in records && mine in records && r != mine && r.rlist.length > 0
      modifies r.rlist, r.rlist.repr, mine.rlist, mine.rlist.repr
      ensures Valid() && r.rlist.length == old(r.rlist.length) - 1 && mine.rlist.length <= 2 * count
      ensures r.rlist.repr == old(r.rlist.repr) && fresh(mine.rlist.repr - old(mine.rlist.repr))
      ensures multiset(mine.rlist.Contents()) + multiset(r.rlist.Contents()) + dropped ==
              old(multiset(mine.rlist.Contents()) + multiset(r.rlist.Contents()))
      ensures Spares(old(multiset(mine.rlist.Contents()) + multiset(r.rlist.Contents())), multiset(Plist()), dropped)
    {
      OwnLists(r, mine);
      OwnLength(r);
      hide Kept, Hazards, Valid, Spares, List.Valid, List.Linked;
      ghost var given, kept := r.rlist.Contents(), mine.rlist.Contents();
      ghost var d := MoveFirst(r, mine);
      ghost var left, more := r.rlist.Contents(), mine.rlist.Contents();
      dropped := ScanIfFull(mine);
      OwnLength(r);
      MovedOne(given, kept, left, more, d, multiset(mine.rlist.Contents()), dropped, multiset(Plist()));
    }

    /** The inner loop of zm_hzdptr_helpscan: everything in `r`'s retire list moves to `mine`'s, which is
        scanned whenever it is full.  `dropped` is what those scans removed. */
    method Drain(r: Record, mine: Record) returns (ghost dropped: multiset<Data>)
      requires Valid() && r in records && mine in records && r != mine && mine.rlist.length <= 2 * count
      modifies r.rlist, r.rlist.repr, mine.rlist, mine.rlist.repr
      ensures Valid() && r.rlist.Contents() == [] && mine.rlist.length <= 2 * count
      ensures r.rlist.repr == old(r.rlist.repr) && fresh(mine.rlist.repr - old(mine.rlist.repr))
      ensures multiset(mine.rlist.Contents()) + dropped ==
              old(multiset(mine.rlist.Contents())) + old(multiset(r.rlist.Contents()))
      ensures Spares(old(multiset(mine.rlist.Contents())) + old(multiset(r.rlist.Contents())), multiset(Plist()),
              dropped)
    {
      hide Hazards, Valid, Spares;
      dropped := multiset{};
      ghost var all := multiset(mine.rlist.Contents()) + multiset(r.rlist.Contents());
      ghost var hazards := multiset(Plist());
      SparesNone(all, hazards);
      OwnLength(r);
      while r.rlist.length > 0
        invariant Valid() && mine.rlist.length <= 2 * count && r.rlist.length == |r.rlist.Contents()|
        invariant r.rlist.repr == old(r.rlist.repr) && fresh(mine.rlist.repr - old(mine.rlist.repr))
        invariant multiset(mine.rlist.Contents()) + multiset(r.rlist.Contents()) + dropped == all
        invariant Spares(all, hazards, dropped)
        decreases r.rlist.length
      {
        ghost var held := multiset(mine.rlist.Contents()) + multiset(r.rlist.Contents());
        ghost var more := MoveOne(r, mine);
        OwnLength(r);
        SparesBoth(all, held, hazards, dropped, more);
        dropped := dropped + more;
      }
    }

    /** The same, with what it does to the lists of the domain: `r` is the `i`-th record and `mine` the `m`-th. */
    method DrainInto(r: Record, mine: Record, ghost i: nat, ghost m: nat) returns (ghost dropped: multiset<Data>)
      requires Valid() && i < |records| && records[i] == r && m < |records| && records[m] == mine && i != m
      requires mine.rlist.length <= 2 * count
      modifies r.rlist, r.rlist.repr, mine.rlist, mine.rlist.repr
      ensures Valid() && mine.rlist.length <= 2 * count
      ensures r.rlist.repr == old(r.rlist.repr) && fresh(mine.rlist.repr - old(mine.rlist.repr))
      ensures |Lists()| == |old(Lists())| && Lists() == old(Lists())[i := []][m := Lists()[m]]
      ensures multiset(Lists()[m]) + dropped == multiset(old(Lists())[m]) + multiset(old(Lists())[i])
      ensures Spares(multiset(old(Lists())[m]) + multiset(old(Lists())[i]), multiset(Plist()), dropped)
    {
      hide Hazards, Spares, ChainedAt, List.Valid, List.Linked;
      assert forall k :: 0 <= k < |records| && k != i && k != m ==>
          records[k].rlist != r.rlist && records[k].rlist != mine.rlist;
      assert r != mine;
      hide Valid;
      dropped := Drain(r, mine);
    }

    /** Sets or clears the active flag of a record. */
    method PutActive(r: Record, active: bool, ghost i: nat)
      requires Valid() && i < |records| && records[i] == r
      modifies r`active
      ensures Valid() && Lists() == old(Lists()) && Plist() == old(Plist()) && Flags() == old(Flags())[i := active]
    {
      hide Hazards, List.Linked, ChainedAt;
      r.active := active;
    }

    /** An idle record is claimed, drained and given back. */
    method Help(r: Record, mine: Record, ghost i: nat, ghost m: nat) returns (ghost dropped: multiset<Data>)
      requires Valid() && i < |records| && records[i] == r && m < |records| && records[m] == mine && i != m
      requires !r.active && mine.rlist.length <= 2 * count
      modifies r`active, r.rlist, r.rlist.repr, mine.rlist, mine.rlist.repr
      ensures Valid() && mine.rlist.length <= 2 * count && Flags() == old(Flags()) && Plist() == old(Plist())
      ensures fresh(mine.rlist.repr - old(mine.rlist.repr)) && r.rlist.repr == old(r.rlist.repr)
      ensures |Lists()| == |old(Lists())| && Lists() == old(Lists())[i := []][m := Lists()[m]]
      ensures multiset(Lists()[m]) + dropped == multiset(old(Lists())[m]) + multiset(old(Lists())[i])
      ensures Spares(multiset(old(Lists())[m]) + multiset(old(Lists())[i]), multiset(Plist()), dropped)
    {
      hide Hazards, Spares, Valid;
      assert Flags()[i := true][i := false] == Flags();
      PutActive(r, true, i);
      dropped := DrainInto(r, mine, i, m);
      PutActive(r, false, i);
    }

    /** One turn of zm_hzdptr_helpscan, at the `i`-th record; `lists` is what it started with and `gone`
        what has been dropped. */
    method HelpIfIdle(r: Record, mine: Record, ghost i: nat, ghost m: nat, ghost lists: seq<seq<Data>>,
        ghost gone: multiset<Data>) returns (ghost dropped: multiset<Data>)
      requires Valid() && i < |records| && records[i] == r && m < |records| && records[m] == mine && mine.active
      requires |lists| == |records| && mine.rlist.length <= 2 * count
      requires Helped(lists, Lists(), Flags(), multiset(Plist()), i, m, gone)
      modifies records`active, Retired(), Cells()
      ensures Valid() && mine.rlist.length <= 2 * count && Flags() == old(Flags()) && Plist() == old(Plist())
      ensures forall n :: n in Cells() ==> n in old(Cells()) || fresh(n)
      ensures Helped(lists, Lists(), Flags(), multiset(Plist()), i + 1, m, dropped)
    {
      hide Hazards, Spares, Valid, Helped;
      ghost var before, flags, hazards := Lists(), Flags(), multiset(Plist());
      ghost var more: multiset<Data> := multiset{};
      if !r.active { more := Help(r, mine, i, m); }
      dropped := gone + more;
      HelpGoesOn(lists, before, Lists(), flags, hazards, i, m, gone, more);
    }

    /** zm_hzdptr_helpscan, called by the thread with the `m`-th record: the retire lists of inactive
        records end up empty, their entries in `mine`'s list or `dropped` by a scan; no other record
        changes, and no entry is lost that the hazards cover. */
    method HelpScan(mine: Record, ghost m: nat) returns (ghost dropped: multiset<Data>)
      requires Valid() && m < |records| && records[m] == mine && mine.active && mine.rlist.length <= 2 * count
      modifies records`active, Retired(), Cells()
      ensures Valid() && mine.rlist.length <= 2 * count && Flags() == old(Flags()) && Plist() == old(Plist())
      ensures Helped(old(Lists()), Lists(), Flags(), multiset(Plist()), |records|, m, dropped)
    {
      hide Hazards, Valid, ChainedAt, Helped, Retired, Cells;
      StartsAt();
      dropped := multiset{};
      ghost var flags, lists, plist := Flags(), Lists(), Plist();
      HelpStarts(lists, flags, multiset(plist), m);
      var cur := first;
      ghost var i := 0;
      while cur != null
        invariant i <= |records| && cur == RecordAt(i) && Valid() && mine.rlist.length <= 2 * count
        invariant Flags() == flags && Plist() == plist
        invariant forall n :: n in Cells() ==> n in old(Cells()) || fresh(n)
        invariant Helped(lists, Lists(), flags, multiset(plist), i, m, dropped)
        decreases |records| - i
      {
        WalksOn(i);
        dropped := HelpIfIdle(cur, mine, i, m, lists, dropped);
        cur := cur.next;
        i := i + 1;
      }
    }

    /** What a change of one retire list means for the lists of the domain. */
    method ScanOwn(mine: Record, ghost m: nat)
      requires Valid() && m < |records| && records[m] == mine
      modifies mine.rlist, mine.rlist.repr
      ensures Valid() && mine.rlist.length <= 2 * count && mine.rlist.repr == old(mine.rlist.repr)
      ensures Lists() == old(Lists())[m := Lists()[m]]
      ensures multiset(Lists()[m]) == multiset(old(Lists())[m]) * multiset(Plist())
    {
      hide Kept, Hazards, ChainedAt, List.Valid, List.Linked;
      assert forall k :: 0 <= k < |records| && k != m ==> records[k].rlist != mine.rlist;
      hide Valid;
      Scan(mine);
    }

    /** The full branch of zm_hzdptr_retire: scan, then helpscan. */
    method ScanAndHelp(mine: Record, ghost m: nat) returns (ghost dropped: multiset<Data>)
      requires Valid() && m < |records| && records[m] == mine && mine.active
      modifies records`active, Retired(), Cells()
      ensures Valid() && mine.rlist.length <= 2 * count && Flags() == old(Flags()) && Plist() == old(Plist())
      ensures Helped(old(Lists()), Lists(), Flags(), multiset(Plist()), |records|, m, dropped)
      ensures OnlyCovered(old(Lists()), Lists(), Flags(), multiset(Plist()), |records|, m)
    {
      hide Hazards, Helped, OnlyCovered, Valid, ChainedAt;
      ghost var hazards, flags, lists := multiset(Plist()), Flags(), Lists();
      ScanOwn(mine, m);
      ghost var scanned := Lists();
      dropped := HelpScan(mine, m);
      CoveredAfterScan(lists, scanned, Lists(), flags, hazards, |records|, m, dropped);
      HelpedAfterScan(lists, scanned, Lists(), flags, hazards, |records|, m, dropped);
      dropped := (multiset(lists[m]) - hazards) + dropped;
    }

    /** zm_hzdptr_retire: the entry joins the retire list; once that holds two entries per counted record
        it is scanned and the idle records are drained.  It never ends up longer than that. */
    method Retire(mine: Record, node: Data, ghost m: nat) returns (ghost dropped: multiset<Data>)
      requires Valid() && m < |records| && records[m] == mine && mine.active && mine.rlist.length <= 2 * count
      modifies records`active, Retired(), Cells()
      ensures Valid() && mine.rlist.length <= 2 * count && Flags() == old(Flags()) && Plist() == old(Plist())
      ensures var lists := old(Lists())[m := old(Lists())[m] + [node]];
              if |lists[m]| < 2 * count then Lists() == lists && dropped == multiset{}
              else
                && Helped(lists, Lists(), Flags(), multiset(Plist()), |records|, m, dropped)
                && OnlyCovered(lists, Lists(), Flags(), multiset(Plist()), |records|, m)
    {
      hide Hazards, Helped, OnlyCovered, Valid, ChainedAt;
      dropped := multiset{};
      PushOwnAt(mine, node, m);
      OwnLength(mine);
      if mine.rlist.length >= 2 * count { dropped := ScanAndHelp(mine, m); }
    }

    /** The push, seen from the lists of the domain. */
    method PushOwnAt(mine: Record, node: Data, ghost m: nat)
      requires Valid() && m < |records| && records[m] == mine
      modifies mine.rlist, mine.rlist.repr
      ensures Valid() && Lists() == old(Lists())[m := old(Lists())[m] + [node]]
      ensures fresh(mine.rlist.repr - old(mine.rlist.repr))
    {
      hide Hazards, ChainedAt, List.Valid, List.Linked;
      assert forall k :: 0 <= k < |records| && k != m ==> records[k].rlist != mine.rlist;
      hide Valid;
      PushOwn(mine, node);
    }

    /** zm_hzdptr_allocate: claims the first record nobody uses, with whatever it has retired; without
        one, puts a new record in front of the list. */
    method Allocate() returns (mine: Record)
      requires Valid()
      modifies this, records`active
      ensures Valid() && mine in records && mine.active
      ensures false in old(Flags()) ==>
                && records == old(records) && count == old(count) && Lists() == old(Lists())
                && (exists k: nat :: k < |records| && mine == records[k] && false !in old(Flags())[..k]
                      && Flags() == old(Flags())[k := true] && !old(Flags())[k])
      ensures false !in old(Flags()) ==>
                && fresh(mine) && records == [mine] + old(records) && count == old(count) + 1
                && mine.hzdptrs == [NULL, NULL] && Lists() == [[]] + old(Lists())
    {
      hide Valid, Hazards;
      ghost var i: nat;
      var cur;
      cur, i := FindIdle();
      if cur != null {
        mine := cur;
        PutActive(mine, true, i);
      } else {
        mine := AddRecord();
      }
    }

    /** The loop of zm_hzdptr_allocate: the first record nobody uses, the `i`-th. */
    method FindIdle() returns (cur: Record?, ghost i: nat)
      requires Valid()
      ensures Valid() && i <= |records| && false !in Flags()[..i]
      ensures if cur == null then i == |records| else i < |records| && cur == records[i] && !Flags()[i]
    {
      hide Valid, Hazards;
      StartsAt();
      cur := first;
      i := 0;
      while cur != null && cur.active
        invariant Valid() && i <= |records| && cur == RecordAt(i)
        invariant forall k :: 0 <= k < i ==> records[k].active
        decreases |records| - i
      {
        WalksOn(i);
        cur := cur.next;
        i := i + 1;
      }
    }

    /** The new record of zm_hzdptr_allocate: counted first, then put at the front of the hazard list. */
    method AddRecord() returns (mine: Record)
      requires Valid()
      modifies this
      ensures Valid() && fresh(mine) && records == [mine] + old(records) && count == old(count) + 1 && mine.active
      ensures mine.hzdptrs == [NULL, NULL] && Lists() == [[]] + old(Lists())
    {
      hide List.Linked, List.Valid;
      count := count + 1;
      mine := new Record(first);
      forall k: nat ensures ChainedAt(k) { assert old(ChainedAt(k)); }
      PushFront(mine);
    }

    /** The push of a record at the front of the hazard list. */
    method PushFront(mine: Record)
      requires Valid() && |records| < count && mine.next == first && mine !in records
      requires mine.rlist !in Retired() && mine.rlist.Valid() && mine.rlist.nodes == []
      modifies this`first, this`records
      ensures Valid() && records == [mine] + old(records) && Lists() == [[]] + old(Lists())
    {
      hide List.Linked, List.Valid;
      first, records := mine, [mine] + records;
      forall k: nat ensures ChainedAt(k) {
        if k > 0 { assert old(ChainedAt(k - 1)) && (k < |records| ==> records[k] == old(records)[k - 1]); }
      }
      assert forall k :: 0 < k < |records| ==> records[k] == old(records)[k - 1];
    }
  }

  lemma ScanBalance(before: multiset<Data>, hazards: multiset<Data>)
    ensures before * hazards + (before - hazards) == before
    ensures Spares(before, hazards, before - hazards)
  {
  }
}
