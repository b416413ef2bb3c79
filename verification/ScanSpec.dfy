/** What one hazard-pointer scan keeps of a retire list: the second stage of zm_hzdptr_scan on values. */
module ScanSpec {

  /** The list without the first occurrence of `x`. */
  function RemoveFirst<T(==)>(xs: seq<T>, x: T): (r: seq<T>)
    ensures multiset(r) == multiset(xs) - multiset{x}
    ensures if x in xs then |r| == |xs| - 1 else r == xs
  {
    if xs == [] then []
    else if xs[0] == x then assert xs == [xs[0]] + xs[1..]; xs[1..]
    else assert xs == [xs[0]] + xs[1..]; [xs[0]] + RemoveFirst(xs[1..], x)
  }

  /** The retired entries that find a match among the hazards; each match uses one hazard up. */
  function Kept<T(==)>(retired: seq<T>, hazards: seq<T>): seq<T> {
    if retired == [] then []
    else if retired[0] in hazards then [retired[0]] + Kept(retired[1..], RemoveFirst(hazards, retired[0]))
    else Kept(retired[1..], hazards)
  }

  /** A scan leaves exactly the multiset intersection of the retire list and the hazards. */
  lemma {:induction false} KeptIsIntersection<T>(retired: seq<T>, hazards: seq<T>)
    ensures multiset(Kept(retired, hazards)) == multiset(retired) * multiset(hazards)
  {
    if retired != [] {
      var x := retired[0];
      assert retired == [x] + retired[1..];
      if x in hazards {
        KeptIsIntersection(retired[1..], RemoveFirst(hazards, x));
      } else {
        KeptIsIntersection(retired[1..], hazards);
      }
    }
  }

  predicate NoDuplicates<T(==)>(xs: seq<T>) { forall i, j :: 0 <= i < j < |xs| ==> xs[i] != xs[j] }

  lemma {:induction false} KeptSublist<T>(retired: seq<T>, hazards: seq<T>)
    ensures |Kept(retired, hazards)| <= |hazards|
    ensures forall x :: x in Kept(retired, hazards) ==> x in retired
    ensures NoDuplicates(retired) ==> NoDuplicates(Kept(retired, hazards))
  {
    if retired != [] {
      var x, rest := retired[0], retired[1..];
      assert forall y :: y in rest ==> y in retired;
      assert NoDuplicates(retired) ==> NoDuplicates(rest) && x !in rest;
      var kept := Kept(rest, if x in hazards then RemoveFirst(hazards, x) else hazards);
      KeptSublist(rest, if x in hazards then RemoveFirst(hazards, x) else hazards);
      assert Kept(retired, hazards) == if x in hazards then [x] + kept else kept;
      hide Kept;
      assert NoDuplicates(kept) && x !in kept ==> NoDuplicates([x] + kept);
    }
  }

  /** From a list without duplicates a scan drops exactly the entries no hazard names. */
  lemma KeptMembers<T>(retired: seq<T>, hazards: seq<T>)
    requires NoDuplicates(retired)
    ensures NoDuplicates(Kept(retired, hazards)) && |Kept(retired, hazards)| <= |hazards|
    ensures forall x :: x in Kept(retired, hazards) <==> x in retired && x in hazards
  {
    KeptSublist(retired, hazards);
    KeptIsIntersection(retired, hazards);
    forall x | x in Kept(retired, hazards) ensures x in hazards {
      assert multiset(Kept(retired, hazards))[x] > 0;
      assert multiset(hazards)[x] > 0;
    }
    forall x | x in retired && x in hazards ensures x in Kept(retired, hazards) {
      assert multiset(retired)[x] > 0 && multiset(hazards)[x] > 0;
      assert multiset(Kept(retired, hazards))[x] > 0;
    }
  }
}
