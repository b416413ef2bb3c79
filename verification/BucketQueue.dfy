/** The consumer of the bucket queue as an object, with the loops of zm_mpbqueue.c. */
module BucketQueue {
  import opened Arith
  import opened Buckets

  // ---------------------------------------------------------------- the queue as an object

  lemma GrowsSelf(a: seq<seq<Value>>)
    ensures Grows(a, a)
  {
  }

  lemma GrowsAt(a: seq<seq<Value>>, b: seq<seq<Value>>, k: nat)
    requires Grows(a, b) && k < |a|
    ensures a[k] <= b[k]
  {
  }

  lemma GrowsOn(a: seq<seq<Value>>, b: seq<seq<Value>>, c: seq<seq<Value>>)
    requires Grows(a, b) && Grows(b, c)
    ensures Grows(a, c)
  {
    forall i | 0 <= i < |a| ensures a[i] <= c[i] { assert a[i] <= b[i] <= c[i]; }
  }

  class Queue {
    const buckets: array<seq<Value>>
    const states: array<int>
    const counters: array<int>
    const bounds: array<int>
    var last: int
    var producing: bool  // whether producers may still append

    ghost function Snapshot(): State
      reads this, buckets, states, counters, bounds
    {
      State(buckets[..], states[..], counters[..], bounds[..], last)
    }

    ghost predicate Valid()
      reads this, buckets, states, counters, bounds
    {
      && states != counters && states != bounds && counters != bounds
      && Inv(Snapshot())
    }

    /** zm_mpbqueue_init; the field last_bucket_set, which the code leaves alone, starts at 0. */
    constructor (wanted: nat)
      requires wanted < SETSZ || wanted % SETSZ == 0
      ensures Valid() && buckets.Length == (if wanted < SETSZ then SETSZ else wanted)
      ensures New(Snapshot()) && producing
    {
      var nbuckets := if wanted < SETSZ then SETSZ else wanted;
      buckets := new seq<Value>[nbuckets](_ => []);
      states := new int[nbuckets](_ => EMPTY_BUCKET);
      counters := new int[nbuckets / SETSZ](_ => 0);
      bounds := new int[nbuckets / SETSZ](_ => 1);
      last, producing := 0, true;
    }

    /** Producers link any number of elements to any buckets, or none. */
    method Others()
      requires Valid()
      modifies buckets
      ensures Valid() && Grows(old(buckets[..]), buckets[..])
      ensures !producing ==> buckets[..] == old(buckets[..])
    {
      var extra: seq<seq<Value>> := *;
      if producing && |extra| == buckets.Length && forall k | 0 <= k < |extra| :: NULL !in extra[k] {
        forall b | 0 <= b < buckets.Length { buckets[b] := buckets[b] + extra[b]; }
        assert forall b :: 0 <= b < buckets.Length ==> buckets[..][b] == old(buckets[..])[b] + extra[b];
      }
    }

    /** zm_swpqueue_isempty_weak on a bucket. */
    method IsEmptyWeak(b: nat) returns (empty: bool)
      requires Valid() && b < buckets.Length
      modifies buckets
      ensures Valid() && Grows(old(buckets[..]), buckets[..])
      ensures !producing ==> buckets[..] == old(buckets[..])
      ensures empty <==> buckets[b] == []
    {
      Others();
      empty := buckets[b] == [];
    }

    /** zm_swpqueue_dequeue on a bucket that holds an element. */
    method Take(b: nat) returns (data: Value)
      requires Valid() && b < buckets.Length && buckets[b] != []
      modifies buckets
      ensures Valid() && data != NULL && TookFrom(old(Snapshot()), Snapshot(), data, b)
      ensures !producing ==> QuietTook(old(Snapshot()), Snapshot(), data, b)
    {
      Others();
      ghost var before := buckets[..];
      data := buckets[b][0];
      assert buckets[b] == [data] + buckets[b][1..];
      assert data in before[b];
      assert forall v :: v in buckets[b][1..] ==> v in buckets[b];
      buckets[b] := buckets[b][1..];
      assert buckets[..] == before[b := buckets[b]];
    }

    /** get_set_state: whether set `offset` may hold elements.  An answer of EMPTY for a set that does
        hold one costs one step towards the back-off bound, at which the buckets are looked at. */
    method GetSetState(offset: nat) returns (state: int)
      requires Valid() && offset < counters.Length
      modifies buckets, states, counters, bounds
      ensures Valid() && Grows(old(buckets[..]), buckets[..])
      ensures !producing ==> buckets[..] == old(buckets[..])
      ensures state == EMPTY_BUCKET || state == NONEMPTY_BUCKET
      ensures forall t :: 0 <= t < counters.Length && t != offset ==> SameSet(old(Snapshot()), Snapshot(), t)
      ensures state == EMPTY_BUCKET ==> OneCloser(old(Snapshot()), Snapshot(), offset)
      ensures Aged(old(Snapshot()), Snapshot(), offset)
      ensures state == NONEMPTY_BUCKET ==>
                SameCount(old(Snapshot()), Snapshot(), offset) || StaysFlagged(Snapshot(), offset)
      ensures !producing ==>
                Snapshot() == Looked(old(Snapshot()), offset)
                    && (state == NONEMPTY_BUCKET <==> Flagged(states[..], offset))
    {
      hide HasElement, Flagged, Spent, Aged, StaysFlagged, First, Grows, Looked, Inv;
      ghost var s := Snapshot();
      GrowsSelf(s.buckets);
      state := EMPTY_BUCKET;
      SetIsOk(s, offset);
      var flags := states[8 * offset..8 * offset + 8];
      WordBounds(flags);
      WordOfSet(states[..], offset, flags);
      if Word(flags) > EMPTY_BUCKET {
        state := NONEMPTY_BUCKET;
      } else {
        CountPoll(offset);
        assert Shaped(Snapshot());
        if counters[offset] >= bounds[offset] {
          state := LookAtBuckets(offset);
          if state == EMPTY_BUCKET { BackOff(offset); } else { StaysUp(Snapshot(), offset); }
        }
      }
      AgedByLook(s, Snapshot(), offset);
      if !producing { IsLooked(s, Snapshot(), offset); }
    }

    /** backoff_counters[offset]++ */
    method CountPoll(offset: nat)
      requires Valid() && offset < counters.Length
      modifies counters
      ensures Valid() && counters[..] == old(counters[..])[offset := Increment(old(counters[offset]))]
    {
      counters[offset] := Increment(counters[offset]);
    }

    /** A look has found nothing: the counter starts again, with twice the bound if that is not the largest. */
    method BackOff(offset: nat)
      requires Valid() && offset < counters.Length
      modifies counters, bounds
      ensures Valid() && counters[..] == old(counters[..])[offset := 0]
      ensures bounds[..] == old(bounds[..])[offset :=
                if old(bounds[offset]) < MAX_BACKOFF then old(bounds[offset]) * 2 else old(bounds[offset])]
    {
      counters[offset] := 0;
      if bounds[offset] < MAX_BACKOFF { bounds[offset] := bounds[offset] * 2; }
    }

    /** Writes the flag of a bucket. */
    method PutFlag(b: nat, flag: int)
      requires Valid() && b < states.Length && (flag == EMPTY_BUCKET || flag == NONEMPTY_BUCKET)
      modifies states
      ensures Valid() && states[..] == old(states[..])[b := flag]
    {
      states[b] := flag;
    }

    /** One turn of the loop of get_set_state: flags the bucket if it is not empty. */
    method LookAt(b: nat) returns (state: int)
      requires Valid() && b < buckets.Length
      modifies buckets, states
      ensures Valid() && Grows(old(buckets[..]), buckets[..])
      ensures !producing ==> buckets[..] == old(buckets[..])
      ensures state == EMPTY_BUCKET || (state == NONEMPTY_BUCKET && buckets[b] != [])
      ensures state == EMPTY_BUCKET ==> old(buckets[b]) == [] && states[..] == old(states[..])
      ensures state == NONEMPTY_BUCKET ==> states[..] == old(states[..])[b := NONEMPTY_BUCKET]
    {
      state := EMPTY_BUCKET;
      ghost var before := buckets[..];
      var empty := IsEmptyWeak(b);
      GrowsAt(before, buckets[..], b);
      if !empty {
        PutFlag(b, NONEMPTY_BUCKET);
        state := NONEMPTY_BUCKET;
      }
    }

    /** The loop of get_set_state: flags the first bucket of the set that is not empty. */
    method LookAtBuckets(offset: nat) returns (state: int)
      requires Valid() && offset < counters.Length
      modifies buckets, states
      ensures Valid() && Grows(old(buckets[..]), buckets[..])
      ensures !producing ==> buckets[..] == old(buckets[..])
      ensures state == EMPTY_BUCKET || state == NONEMPTY_BUCKET
      ensures state == EMPTY_BUCKET ==> !HasElement(old(buckets[..]), offset) && states[..] == old(states[..])
      ensures state == NONEMPTY_BUCKET ==> StaysFlagged(Snapshot(), offset)
      ensures OthersFlags(old(states[..]), states[..], offset)
      ensures !producing ==>
                var k := First(old(buckets[..]), offset, 0);
                && (state == EMPTY_BUCKET <==> k == SETSZ)
                && (k < SETSZ ==> states[..] == old(states[..])[8 * offset + k := NONEMPTY_BUCKET])
    {
      hide HasElement, First, Grows, StaysFlagged, Inv, LookedUpTo, OthersFlags;
      ghost var s := Snapshot();
      LookStarts(s, offset);
      state := EMPTY_BUCKET;
      var j := 0;
      while j < SETSZ && state == EMPTY_BUCKET
        invariant 0 <= j <= SETSZ && Valid() && LookedUpTo(s, Snapshot(), offset, j, state)
        invariant !producing ==> buckets[..] == s.buckets
        decreases SETSZ - j, if state == EMPTY_BUCKET then 1 else 0
      {
        ghost var s1, turn := Snapshot(), j;
        state := LookAt(8 * offset + j);
        j := if state == EMPTY_BUCKET then j + 1 else j;
        LookGoesOn(s, s1, Snapshot(), offset, turn, state);
      }
      LookEnds(s, Snapshot(), offset, j, state, producing);
    }

    /** The inner loop of zm_mpbqueue_dequeue: takes the head of the first bucket of the set that is not
        empty, and clears the flags of those before it. */
    method TakeFromSet(offset: nat) returns (data: Value, ghost from: nat)
      requires Valid() && offset < counters.Length
      modifies buckets, states
      ensures Valid()
      ensures data == NULL ==> Grows(old(buckets[..]), buckets[..]) && !HasElement(old(buckets[..]), offset)
      ensures data == NULL ==> !Flagged(states[..], offset)
      ensures data != NULL ==> FirstOf(old(buckets[..]), offset, from)
      ensures data == NULL && !producing ==> buckets[..] == old(buckets[..])
      ensures data != NULL ==> TookFrom(old(Snapshot()), Snapshot(), data, from)
      ensures data != NULL && !producing ==> QuietTook(old(Snapshot()), Snapshot(), data, from)
      ensures OthersFlags(old(states[..]), states[..], offset) && FlagsKept(old(Snapshot()), states[..], offset)
      ensures !producing ==> Outcome(Snapshot(), data) == Taken(old(Snapshot()), offset)
    {
      hide Flagged, HasElement, Taken, TookFrom, QuietTook, Grows, Inv, Cleared, TriedUpTo, FlagsKept, OthersFlags,
           FirstOf;
      ghost var s := Snapshot();
      TryStarts(s, offset, producing);
      data := NULL;
      var j := 0;
      while j < SETSZ && data == NULL
        invariant 0 <= j <= SETSZ && Valid() && TriedUpTo(s, Snapshot(), offset, j, data, producing)
        decreases SETSZ - j, if data == NULL then 1 else 0
      {
        ghost var s1, turn := Snapshot(), j;
        data := TakeIfAny(8 * offset + j);
        if data == NULL {
          PutFlag(8 * offset + j, EMPTY_BUCKET);
          j := j + 1;
        }
        TryGoesOn(s, s1, Snapshot(), offset, turn, data, producing);
      }
      from := 8 * offset + j;
      TryEnds(s, Snapshot(), offset, j, data, producing);
    }

    /** One turn of zm_mpbqueue_dequeue: get_set_state, and the inner loop if it says so. */
    method Poll(offset: nat) returns (data: Value, ghost from: nat)
      requires Valid() && offset < counters.Length
      modifies buckets, states, counters, bounds
      ensures Valid()
      ensures data == NULL ==> Grows(old(buckets[..]), buckets[..]) && (!producing ==> buckets[..] == old(buckets[..]))
      ensures data == NULL ==> OneCloser(old(Snapshot()), Snapshot(), offset)
      ensures Aged(old(Snapshot()), Snapshot(), offset)
      ensures forall t :: 0 <= t < counters.Length && t != offset ==> SameSet(old(Snapshot()), Snapshot(), t)
      ensures data != NULL ==>
                TookFrom(old(Snapshot()), Snapshot(), data, from) && FirstOf(old(buckets[..]), offset, from)
      ensures data != NULL && !producing ==> QuietTook(old(Snapshot()), Snapshot(), data, from)
      ensures !producing ==> Outcome(Snapshot(), data) == PolledSet(old(Snapshot()), offset)
    {
      hide Looked, Taken, SameSet, Aged, OneCloser, Grows, TookFrom, QuietTook, Flagged, FirstOf;
      data, from := NULL, 0;
      ghost var s := Snapshot();
      var state := GetSetState(offset);
      ghost var s1 := Snapshot();
      if state > EMPTY_BUCKET {
        data, from := TakeFromSet(offset);
        ghost var s2 := Snapshot();
        if data != NULL {
          TookAfter(s, s1, s2, data, from);
          FirstBefore(s.buckets, s1.buckets, offset, from);
          if !producing { SameBefore(s, s1, s2, data, from); }
        } else {
          GrowsOn(s.buckets, s1.buckets, s2.buckets);
          NothingToTake(s, s1, s2, offset);
        }
        OthersSame(s, s1, s2, offset);
        AgedByPoll(s, s1, s2, offset);
      }
    }

    /** zm_mpbqueue_dequeue: polls the sets from the last one on, and takes at most one element, the head
        of some bucket. */
    method Dequeue() returns (data: Value)
      requires Valid()
      modifies this`last, buckets, states, counters, bounds
      ensures Valid() && Call(old(Snapshot()), Snapshot(), data)
      ensures !producing ==> QuietCall(old(Snapshot()), Snapshot(), data)
      ensures !producing ==> Outcome(Snapshot(), data) == Alone(old(Snapshot()))
    {
      hide PolledAt, OneCloser, TookFrom, QuietTook, SameSet, HasElement, Call, QuietCall, Turn, SetAt, Grows, Aged,
           PolledSet, FirstOf, EarlierMissed;
      data := NULL;
      ghost var from, s0 := 0, Snapshot();
      NotPolled(s0);
      GrowsSelf(s0.buckets);
      var n, i := states.Length / 8, 0;
      assert n == counters.Length;
      while i < n && data == NULL
        invariant 0 <= i <= n == counters.Length && Valid() && last == s0.last
        invariant data == NULL ==> Grows(s0.buckets, buckets[..]) && (!producing ==> buckets[..] == s0.buckets)
        invariant data == NULL ==> forall t :: 0 <= t < n ==> PolledAt(s0, Snapshot(), t, i)
        invariant data != NULL ==> i < n && TookFrom(s0, Snapshot(), data, from)
        invariant data != NULL ==> FirstOf(s0.buckets, SetAt(last, n, i), from) && EarlierMissed(s0, Snapshot(), i)
        invariant data != NULL && !producing ==> QuietTook(s0, Snapshot(), data, from)
        invariant data != NULL ==> forall t :: 0 <= t < n ==> Aged(s0, Snapshot(), t)
        invariant data == NULL && !producing ==> PolledFrom(Snapshot(), i) == Alone(s0)
        invariant data != NULL && !producing ==> Outcome(Snapshot().(last := SetAt(last, n, i)), data) == Alone(s0)
        decreases n - i, if data == NULL then 1 else 0
      {
        TurnOf(last, n, i);
        var offset := SetAt(last, n, i);
        ghost var s := Snapshot();
        hide Inv;
        data, from := Poll(offset);
        ghost var s1 := Snapshot();
        if data == NULL {
          GrowsOn(s0.buckets, s.buckets, s1.buckets);
          ghost var turn := i;
          i := i + 1;
          PolledAll(s0, s, s1, turn, i, offset);
        } else {
          TookAfter(s0, s, s1, data, from);
          FirstBefore(s0.buckets, s.buckets, offset, from);
          if !producing { SameBefore(s0, s, s1, data, from); }
          AgedAtLast(s0, s, s1, i, offset);
        }
      }
      ghost var s1 := Snapshot();
      LastTurn(last, n, i);
      last := SetAt(last, n, i);
      Returned(s0, s1, Snapshot(), data, from, i, producing);
    }

    /** A bucket's head, or NULL if it was empty when looked at. */
    method TakeIfAny(b: nat) returns (data: Value)
      requires Valid() && b < buckets.Length
      modifies buckets
      ensures Valid()
      ensures data == NULL ==> Grows(old(buckets[..]), buckets[..]) && old(buckets[b]) == []
      ensures data == NULL && !producing ==> buckets[..] == old(buckets[..])
      ensures data != NULL ==> TookFrom(old(Snapshot()), Snapshot(), data, b)
      ensures data != NULL && !producing ==> QuietTook(old(Snapshot()), Snapshot(), data, b)
    {
      data := NULL;
      ghost var s := Snapshot();
      var empty := IsEmptyWeak(b);
      ghost var s1 := Snapshot();
      hide Inv, TookFrom, QuietTook, Grows;
      if !empty {
        data := Take(b);
        TookAfter(s, s1, Snapshot(), data, b);
        if !producing { SameBefore(s, s1, Snapshot(), data, b); }
      } else {
        GrowsAt(s.buckets, s1.buckets, b);
      }
    }

    /** zm_mpbqueue_dequeue_range: at most one element from each bucket of [start, stop), in bucket order,
        until `inCount` are taken; the count is only looked at after an element is taken, so one element
        is taken even for a count of 0.  `from` are the buckets they came from, `seen` how far it got. */
    method DequeueRange(start: int, stop: int, inCount: int)
        returns (data: seq<Value>, ghost from: seq<int>, ghost seen: int)
      requires Valid() && 0 <= start && stop <= buckets.Length
      modifies buckets
      ensures Valid() && Ranged(old(buckets[..]), buckets[..], data, from)
      ensures RangeDone(old(buckets[..]), from, start, seen)
      ensures seen <= stop || data == []
      ensures seen >= stop || |data| == (if inCount > 1 then inCount else 1)
      ensures |data| <= (if inCount > 1 then inCount else 1)
    {
      data, from := [], [];
      ghost var s := Snapshot();
      assert Ranged(s.buckets, buckets[..], data, from) && RangeDone(s.buckets, from, start, start);
      hide Ranged, RangeDone, TookFrom, Inv, Grows;
      var j, done := start, false;
      while j < stop && !done
        invariant start <= j && (j <= stop || data == []) && Valid()
        invariant Ranged(s.buckets, buckets[..], data, from) && RangeDone(s.buckets, from, start, j)
        invariant if done then |data| == (if inCount > 1 then inCount else 1) else data == [] || |data| < inCount
        decreases stop - j, if done then 0 else 1
      {
        ghost var s1, before := Snapshot(), j;
        var d := TakeIfAny(j);
        j := j + 1;
        if d != NULL {
          RangedTakes(s, s1, Snapshot(), data, from, d, start, before, j);
          data, from := data + [d], from + [before];
          done := |data| >= inCount;
        } else {
          RangedGrows(s.buckets, s1.buckets, buckets[..], data, from, start, before, j);
        }
      }
      seen := j;
    }
  }

  /** The elements of `data` were the heads of the buckets `from`, and nothing else was removed. */
  predicate Ranged(a: seq<seq<Value>>, b: seq<seq<Value>>, data: seq<Value>, from: seq<int>) {
    && |a| == |b| && |data| == |from|
    && (forall k :: 0 <= k < |from| ==> 0 <= from[k] < |a| && a[from[k]] <= [data[k]] + b[from[k]])
    && (forall c :: 0 <= c < |a| && c !in from ==> a[c] <= b[c])
  }

  /** Every bucket from `start` up to `j` has either given an element, in order, or was empty at first. */
  ghost predicate RangeDone(a: seq<seq<Value>>, from: seq<int>, start: int, j: int) {
    && (forall k :: 0 <= k < |from| ==> start <= from[k] < j)
    && (forall k, l :: 0 <= k < l < |from| ==> from[k] < from[l])
    && (forall b :: start <= b < j && b < |a| && b !in from ==> 0 <= b && a[b] == [])
  }

  lemma RangedGrows(a: seq<seq<Value>>, b: seq<seq<Value>>, c: seq<seq<Value>>, data: seq<Value>, from: seq<int>,
      start: int, j: int, next: int)
    requires Ranged(a, b, data, from) && Grows(b, c) && RangeDone(a, from, start, j) && next == j + 1
    requires 0 <= start <= j < |b| && b[j] == []
    ensures Ranged(a, c, data, from) && RangeDone(a, from, start, next)
  {
    forall k | 0 <= k < |from| ensures a[from[k]] <= [data[k]] + c[from[k]] {
      assert b[from[k]] <= c[from[k]];
      assert a[from[k]] <= [data[k]] + b[from[k]] <= [data[k]] + c[from[k]];
    }
    forall i | 0 <= i < |a| && i !in from ensures a[i] <= c[i] { assert a[i] <= b[i] <= c[i]; }
    assert j !in from && a[j] <= b[j];
  }

  lemma RangedTakes(s: State, s1: State, s2: State, data: seq<Value>, from: seq<int>, d: Value,
      start: int, j: int, next: int)
    requires Ranged(s.buckets, s1.buckets, data, from) && TookFrom(s1, s2, d, j)
    requires RangeDone(s.buckets, from, start, j) && 0 <= start <= j && next == j + 1
    ensures Ranged(s.buckets, s2.buckets, data + [d], from + [j]) && RangeDone(s.buckets, from + [j], start, next)
  {
    var a, b, c, more := s.buckets, s1.buckets, s2.buckets, from + [j];
    assert j !in from;
    forall k | 0 <= k < |from| ensures a[from[k]] <= [data[k]] + c[from[k]] {
      assert b[from[k]] <= c[from[k]];
      assert a[from[k]] <= [data[k]] + b[from[k]] <= [data[k]] + c[from[k]];
    }
    assert a[j] <= b[j] <= [d] + c[j];
    forall i | 0 <= i < |a| && i !in more ensures a[i] <= c[i] { assert i !in from && a[i] <= b[i] <= c[i]; }
    forall i | start <= i < next && i < |a| && i !in more ensures a[i] == [] { assert i !in from; }
  }

  lemma TurnOf(last: int, n: int, i: int)
    requires 0 <= last < n && 0 <= i < n
    ensures 0 <= SetAt(last, n, i) < n && Turn(last, n, SetAt(last, n, i)) == i
  {
    if last + i < n { DivUnique(last + i, n, 0, last + i); } else { DivUnique(last + i, n, 1, last + i - n); }
  }

  /** Where a poll that starts at `last` ends: with the set of its last turn, or where it started. */
  lemma LastTurn(last: int, n: int, i: int)
    requires 0 <= last < n && 0 <= i <= n
    ensures 0 <= SetAt(last, n, i) < n
    ensures if i == n then SetAt(last, n, i) == last else Turn(last, n, SetAt(last, n, i)) == i
  {
    if i < n { TurnOf(last, n, i); } else { DivUnique(last + i, n, 1, last); }
  }

  /** After `i` turns without success: a set that has had its turn is one step closer to its bound. */
  ghost predicate PolledAt(s: State, s': State, t: int, i: int) {
    if Turn(s.last, Sets(s), t) < i then OneCloser(s, s', t) && Aged(s, s', t) else SameSet(s, s', t)
  }

  lemma StillThere(a: seq<seq<Value>>, b: seq<seq<Value>>, t: int)
    requires Grows(a, b)
    ensures HasElement(a, t) ==> HasElement(b, t)
  {
    if HasElement(a, t) {
      var k :| 0 <= k < |a| && InSet(k, t) && a[k] != [];
      assert a[k] <= b[k] && b[k] != [];
    }
  }

  /** One turn of a poll, from `s` to `s1`. */
  lemma PolledOn(s0: State, s: State, s1: State, t: int, i: int, offset: int)
    requires 0 <= t < Sets(s0) && 0 <= offset < Sets(s0) && 0 <= s0.last < Sets(s0)
             && Turn(s0.last, Sets(s0), offset) == i
    requires Grows(s0.buckets, s.buckets) && PolledAt(s0, s, t, i)
    requires (t != offset ==> SameSet(s, s1, t)) && OneCloser(s, s1, offset) && Aged(s, s1, offset)
    ensures PolledAt(s0, s1, t, i + 1)
  {
    StillThere(s0.buckets, s.buckets, t);
    if t == offset { SameSpent(s0, s, t); } else { SameSpent(s, s1, t); }
    hide HasElement, Flagged, Spent;
  }

  lemma SameSpent(s: State, s': State, t: int)
    requires SameSet(s, s', t)
    ensures Spent(s', t) == Spent(s, t) && (Flagged(s'.states, t) <==> Flagged(s.states, t))
  {
    if b :| 0 <= b < |s.states| && InSet(b, t) && s.states[b] == NONEMPTY_BUCKET {
      assert s'.states[b] == NONEMPTY_BUCKET;
    }
    if b :| 0 <= b < |s'.states| && InSet(b, t) && s'.states[b] == NONEMPTY_BUCKET {
      assert s.states[b] == NONEMPTY_BUCKET;
    }
    hide Flagged;
  }

  /** The turn that finds an element. */
  lemma AgedAtLast(s0: State, s: State, s1: State, i: int, offset: int)
    requires 0 <= offset < Sets(s0) && 0 <= s0.last < Sets(s0) && Turn(s0.last, Sets(s0), offset) == i
    requires Aged(s, s1, offset)
    requires forall t :: 0 <= t < Sets(s0) ==> PolledAt(s0, s, t, i)
    requires forall t :: 0 <= t < Sets(s0) && t != offset ==> SameSet(s, s1, t)
    ensures (forall t :: 0 <= t < Sets(s0) ==> Aged(s0, s1, t)) && EarlierMissed(s0, s1, i)
  {
    forall t | 0 <= t < Sets(s0)
      ensures Aged(s0, s1, t) && (Turn(s0.last, Sets(s0), t) < i ==> OneCloser(s0, s1, t))
    {
      assert PolledAt(s0, s, t, i);
      if t != offset { SameSpent(s, s1, t); }
      if SameSet(s0, s, t) { SameSpent(s0, s, t); }
      hide Spent, Flagged, HasElement;
    }
  }

  /** Buckets that are empty later were empty before. */
  lemma FirstBefore(a: seq<seq<Value>>, b: seq<seq<Value>>, t: int, from: int)
    requires Grows(a, b) && FirstOf(b, t, from)
    ensures FirstOf(a, t, from)
  {
    forall c | 8 * t <= c < from ensures a[c] == [] { assert a[c] <= b[c]; }
  }

  /** The flags of a set, read as one word, are zero exactly if none is up. */
  lemma WordOfSet(states: seq<int>, t: nat, flags: seq<int>)
    requires 8 * t + 8 <= |states| && flags == states[8 * t..8 * t + 8]
    ensures Flagged(states, t) <==> exists j :: 0 <= j < |flags| && flags[j] == 1
  {
    if b :| 0 <= b < |states| && InSet(b, t) && states[b] == NONEMPTY_BUCKET {
      assert flags[b - 8 * t] == 1;
    }
    if j :| 0 <= j < |flags| && flags[j] == 1 {
      assert states[8 * t + j] == NONEMPTY_BUCKET && InSet(8 * t + j, t);
    }
  }

  /** A look has found the first `j` buckets of the set empty, and the next one not if `state` says so. */
  predicate LookedUpTo(s: State, s': State, t: nat, j: nat, state: int) {
    && 8 * t + SETSZ <= |s.buckets| == |s.states| && Grows(s.buckets, s'.buckets) && j <= SETSZ
    && (forall b :: 8 * t <= b < 8 * t + j ==> s.buckets[b] == [])
    && (state == EMPTY_BUCKET || (state == NONEMPTY_BUCKET && j < SETSZ && s'.buckets[8 * t + j] != []))
    && s'.states == (if state == EMPTY_BUCKET then s.states else s.states[8 * t + j := NONEMPTY_BUCKET])
  }

  lemma LookStarts(s: State, t: nat)
    requires Inv(s) && t < Sets(s)
    ensures LookedUpTo(s, s, t, 0, EMPTY_BUCKET)
  {
  }

  lemma LookGoesOn(s: State, s1: State, s2: State, t: nat, j: nat, state: int)
    requires LookedUpTo(s, s1, t, j, EMPTY_BUCKET) && j < SETSZ && Grows(s1.buckets, s2.buckets)
    requires state == EMPTY_BUCKET || (state == NONEMPTY_BUCKET && s2.buckets[8 * t + j] != [])
    requires state == EMPTY_BUCKET ==> s1.buckets[8 * t + j] == [] && s2.states == s1.states
    requires state == NONEMPTY_BUCKET ==> s2.states == s1.states[8 * t + j := NONEMPTY_BUCKET]
    ensures LookedUpTo(s, s2, t, if state == EMPTY_BUCKET then j + 1 else j, state)
  {
    GrowsOn(s.buckets, s1.buckets, s2.buckets);
    GrowsAt(s.buckets, s1.buckets, 8 * t + j);
  }

  lemma LookEnds(s: State, s': State, t: nat, j: nat, state: int, producing: bool)
    requires LookedUpTo(s, s', t, j, state) && (state == EMPTY_BUCKET ==> j == SETSZ)
    requires !producing ==> s'.buckets == s.buckets
    ensures state == EMPTY_BUCKET || state == NONEMPTY_BUCKET
    ensures Grows(s.buckets, s'.buckets) && OthersFlags(s.states, s'.states, t)
    ensures state == EMPTY_BUCKET ==> !HasElement(s.buckets, t) && s'.states == s.states
    ensures state == NONEMPTY_BUCKET ==> StaysFlagged(s', t)
    ensures !producing ==>
              var k := First(s.buckets, t, 0);
              && (state == EMPTY_BUCKET <==> k == SETSZ)
              && (k < SETSZ ==> s'.states == s.states[8 * t + k := NONEMPTY_BUCKET])
  {
    if state == EMPTY_BUCKET { NoElement(s.buckets, t); } else { IsUp(s', t, 8 * t + j); }
    hide First, StaysFlagged, HasElement;
    if !producing { FirstIs(s.buckets, t, j); }
  }

  lemma FirstIs(buckets: seq<seq<Value>>, t: nat, j: nat)
    requires 8 * t + SETSZ <= |buckets| && j <= SETSZ && (j < SETSZ ==> buckets[8 * t + j] != [])
    requires forall b :: 8 * t <= b < 8 * t + j ==> buckets[b] == []
    ensures First(buckets, t, 0) == j
  {
    var k := First(buckets, t, 0);
    hide First;
    assert k >= j;
  }

  /** The first `j` buckets of the set were empty and have their flags down; `data` was taken from the next. */
  predicate TriedUpTo(s: State, s': State, t: nat, j: nat, data: Value, producing: bool) {
    && 8 * t + SETSZ <= |s.buckets| == |s.states| && j <= SETSZ && (data != NULL ==> j < SETSZ)
    && (forall b :: 8 * t <= b < 8 * t + j ==> s.buckets[b] == [])
    && s'.states == Cleared(s.states, t, j)
    && (data == NULL ==> Grows(s.buckets, s'.buckets) && (!producing ==> s'.buckets == s.buckets))
    && (data != NULL ==> TookFrom(s, s', data, 8 * t + j) && (!producing ==> QuietTook(s, s', data, 8 * t + j)))
  }

  lemma TryStarts(s: State, t: nat, producing: bool)
    requires Inv(s) && t < Sets(s)
    ensures Shaped(s) && TriedUpTo(s, s, t, 0, NULL, producing)
  {
  }

  lemma TryGoesOn(s: State, s1: State, s2: State, t: nat, j: nat, data: Value, producing: bool)
    requires TriedUpTo(s, s1, t, j, NULL, producing) && j < SETSZ
    requires data == NULL ==>
               && Grows(s1.buckets, s2.buckets) && (!producing ==> s2.buckets == s1.buckets)
               && s1.buckets[8 * t + j] == [] && s2.states == s1.states[8 * t + j := EMPTY_BUCKET]
    requires data != NULL ==>
               && TookFrom(s1, s2, data, 8 * t + j) && (!producing ==> QuietTook(s1, s2, data, 8 * t + j))
               && s2.states == s1.states
    ensures TriedUpTo(s, s2, t, if data == NULL then j + 1 else j, data, producing)
  {
    hide TookFrom, QuietTook, Grows;
    if data == NULL {
      GrowsOn(s.buckets, s1.buckets, s2.buckets);
      GrowsAt(s.buckets, s1.buckets, 8 * t + j);
    } else {
      TookAfter(s, s1, s2, data, 8 * t + j);
      if !producing { SameBefore(s, s1, s2, data, 8 * t + j); }
    }
  }

  lemma TryEnds(s: State, s': State, t: nat, j: nat, data: Value, producing: bool)
    requires Shaped(s) && t < Sets(s) && TriedUpTo(s, s', t, j, data, producing) && (data == NULL ==> j == SETSZ)
    requires s' == s.(states := s'.states, buckets := s'.buckets)
    ensures data == NULL ==> Grows(s.buckets, s'.buckets) && (!producing ==> s'.buckets == s.buckets)
    ensures data == NULL ==> !HasElement(s.buckets, t) && !Flagged(s'.states, t)
    ensures data != NULL ==> TookFrom(s, s', data, 8 * t + j) && FirstOf(s.buckets, t, 8 * t + j)
    ensures data != NULL && !producing ==> QuietTook(s, s', data, 8 * t + j)
    ensures OthersFlags(s.states, s'.states, t) && FlagsKept(s, s'.states, t)
    ensures !producing ==> Outcome(s', data) == Taken(s, t)
  {
    hide TookFrom, Grows, HasElement, Taken;
    if data == NULL { NoElement(s.buckets, t); }
    if !producing { IsTaken(s, s', data, t, j); }
  }

  lemma IsTaken(s: State, s': State, data: Value, t: nat, j: nat)
    requires Shaped(s) && t < Sets(s) && j <= SETSZ
             && s' == s.(states := Cleared(s.states, t, j), buckets := s'.buckets)
    requires forall b :: 8 * t <= b < 8 * t + j ==> s.buckets[b] == []
    requires if data == NULL then j == SETSZ && s'.buckets == s.buckets
             else j < SETSZ && QuietTook(s, s', data, 8 * t + j)
    ensures Outcome(s', data) == Taken(s, t)
  {
    FirstIs(s.buckets, t, j);
    hide First, Cleared;
  }

  lemma OthersSame(s: State, s1: State, s2: State, offset: int)
    requires forall t :: 0 <= t < Sets(s) && t != offset ==> SameSet(s, s1, t)
    requires s2.counters == s1.counters && s2.bounds == s1.bounds && OthersFlags(s1.states, s2.states, offset)
    ensures forall t :: 0 <= t < Sets(s) && t != offset ==> SameSet(s, s2, t)
  {
    forall t | 0 <= t < Sets(s) && t != offset ensures SameSet(s, s2, t) { assert SameSet(s, s1, t); }
  }

  lemma NoElement(buckets: seq<seq<Value>>, t: nat)
    requires 8 * t + SETSZ <= |buckets| && forall b :: 8 * t <= b < 8 * t + SETSZ ==> buckets[b] == []
    ensures !HasElement(buckets, t)
  {
  }

  lemma SetIsOk(s: State, t: nat)
    requires Inv(s) && t < Sets(s)
    ensures Shaped(s) && s.bounds[t] >= 1
    ensures forall j :: 8 * t <= j < 8 * t + 8 ==> 0 <= s.states[j] <= 1
  {
  }

  lemma IsLooked(s: State, s': State, t: nat)
    requires Shaped(s) && t < Sets(s) && Shaped(s') && s'.last == s.last && s'.buckets == s.buckets
    requires var c, k := Increment(s.counters[t]), First(s.buckets, t, 0);
             if Flagged(s.states, t) then s' == s
             else if c < s.bounds[t] then
               s'.counters == s.counters[t := c] && s'.bounds == s.bounds && s'.states == s.states
             else if k < SETSZ then
               && s'.counters == s.counters[t := c] && s'.bounds == s.bounds
               && s'.states == s.states[8 * t + k := NONEMPTY_BUCKET]
             else
               && s'.counters == s.counters[t := 0] && s'.states == s.states
               && s'.bounds == s.bounds[t := if s.bounds[t] < MAX_BACKOFF then s.bounds[t] * 2 else s.bounds[t]]
    ensures s' == Looked(s, t)
  {
  }

  lemma IsUp(s: State, t: nat, b: nat)
    requires b < |s.buckets| && b < |s.states| && InSet(b, t) && s.states[b] == NONEMPTY_BUCKET && s.buckets[b] != []
    ensures StaysFlagged(s, t)
  {
  }

  lemma StaysUp(s: State, t: int)
    requires StaysFlagged(s, t)
    ensures Flagged(s.states, t)
  {
  }

  /** get_set_state: the flags were up; or the counter goes up and stays below the bound, or a look puts
      a flag up, or it finds nothing, and the counter starts again with a larger bound. */
  lemma AgedByLook(s: State, s': State, t: int)
    requires Inv(s) && 0 <= t < Sets(s) && t < |s'.counters| && t < |s'.bounds|
    requires if Flagged(s.states, t) then SameCount(s, s', t) && Flagged(s'.states, t)
             else if s'.bounds[t] == s.bounds[t] && s'.counters[t] == Increment(s.counters[t])
             then s'.counters[t] < s.bounds[t] || Flagged(s'.states, t)
             else
               && Increment(s.counters[t]) >= s.bounds[t] && s'.counters[t] == 0
               && s'.bounds[t] == if s.bounds[t] < MAX_BACKOFF then s.bounds[t] * 2 else s.bounds[t]
    ensures Aged(s, s', t)
  {
    assert IsBackoff(s.bounds[t]);
    hide Flagged;
  }

  lemma NothingToTake(s: State, s1: State, s2: State, t: int)
    requires Grows(s.buckets, s1.buckets) && !HasElement(s1.buckets, t) && !Flagged(s2.states, t)
    requires 0 <= t < |s.counters| && t < |s.bounds| && t < |s2.counters| && t < |s2.bounds|
    ensures OneCloser(s, s2, t)
  {
    StillThere(s.buckets, s1.buckets, t);
  }

  /** A poll that took the inner loop: either the flags were up before and the counter did not move, or
      the flag a look has put up is still there. */
  lemma AgedByPoll(s: State, s1: State, s2: State, t: int)
    requires Aged(s, s1, t) && s2.counters == s1.counters && s2.bounds == s1.bounds
    requires SameCount(s, s1, t) || StaysFlagged(s1, t)
    requires FlagsKept(s1, s2.states, t)
    ensures Aged(s, s2, t)
  {
    if StaysFlagged(s1, t) {
      var b :| 0 <= b < |s1.buckets| && b < |s1.states| && InSet(b, t) && s1.states[b] == NONEMPTY_BUCKET
          && s1.buckets[b] != [];
      assert s2.states[b] == NONEMPTY_BUCKET;
    }
  }

  lemma NotPolled(s: State)
    requires Inv(s)
    ensures forall t :: 0 <= t < Sets(s) ==> PolledAt(s, s, t, 0)
  {
  }

  lemma PolledAll(s0: State, s: State, s1: State, i: int, next: int, offset: int)
    requires 0 <= offset < Sets(s0) && 0 <= s0.last < Sets(s0) && Turn(s0.last, Sets(s0), offset) == i && next == i + 1
    requires Grows(s0.buckets, s.buckets) && OneCloser(s, s1, offset) && Aged(s, s1, offset)
    requires forall t :: 0 <= t < Sets(s0) ==> PolledAt(s0, s, t, i)
    requires forall t :: 0 <= t < Sets(s0) && t != offset ==> SameSet(s, s1, t)
    ensures forall t :: 0 <= t < Sets(s0) ==> PolledAt(s0, s1, t, next)
  {
    forall t | 0 <= t < Sets(s0) ensures PolledAt(s0, s1, t, next) {
      assert PolledAt(s0, s, t, i);
      assert t != offset ==> SameSet(s, s1, t);
      PolledOn(s0, s, s1, t, i, offset);
    }
  }

  /** What the loop has done is what a call may do. */
  lemma Returned(s: State, s1: State, s': State, data: Value, from: nat, i: nat, producing: bool)
    requires Inv(s) && Inv(s') && s' == s1.(last := s'.last) && Sets(s1) == Sets(s)
    requires data == NULL ==>
               && Grows(s.buckets, s1.buckets) && (!producing ==> s1.buckets == s.buckets) && s'.last == s.last
               && forall t :: 0 <= t < Sets(s) ==> PolledAt(s, s1, t, Sets(s))
    requires data != NULL ==>
               && TookFrom(s, s1, data, from) && (forall t :: 0 <= t < Sets(s) ==> Aged(s, s1, t))
               && FirstOf(s.buckets, s'.last, from) && EarlierMissed(s, s1, i) && Turn(s.last, Sets(s), s'.last) == i
    requires data != NULL && !producing ==> QuietTook(s, s1, data, from)
    ensures Call(s, s', data) && (!producing ==> QuietCall(s, s', data))
  {
    if data == NULL {
      forall t | 0 <= t < Sets(s) ensures OneCloser(s, s', t) && Aged(s, s', t) { assert PolledAt(s, s1, t, Sets(s)); }
    } else {
      forall t | 0 <= t < Sets(s) ensures Aged(s, s', t) { assert Aged(s, s1, t); }
      EarlierOn(s, s1, s', i);
      hide Inv, Aged, OneCloser, EarlierMissed, FirstOf, Turn;
      assert TookFrom(s, s', data, from) && Served(s, s', from);
      if !producing { SizeAfter(s.buckets, from, s1.buckets[from]); }
    }
  }

  lemma EarlierOn(s: State, s1: State, s': State, i: nat)
    requires EarlierMissed(s, s1, i) && s' == s1.(last := s'.last)
    ensures EarlierMissed(s, s', i)
  {
    forall t | 0 <= t < Sets(s) && Turn(s.last, Sets(s), t) < i ensures OneCloser(s, s', t) {
      assert OneCloser(s, s1, t);
    }
  }

  lemma SameBefore(s: State, s1: State, s2: State, data: Value, b: int)
    requires s.buckets == s1.buckets && QuietTook(s1, s2, data, b)
    ensures QuietTook(s, s2, data, b)
  {
  }

  /** Taking an element after producers have appended is taking it from what they have made of the queue. */
  lemma TookAfter(s: State, s1: State, s2: State, data: Value, b: int)
    requires Grows(s.buckets, s1.buckets) && TookFrom(s1, s2, data, b)
    ensures TookFrom(s, s2, data, b)
  {
    assert s.buckets[b] <= s1.buckets[b] <= [data] + s2.buckets[b];
    forall c | 0 <= c < |s.buckets| && c != b ensures s.buckets[c] <= s2.buckets[c] {
      assert s.buckets[c] <= s1.buckets[c] <= s2.buckets[c];
    }
  }

  /** Set `t` is where it was on its way to the back-off bound. */
  predicate SameCount(s: State, s': State, t: int) {
    && 0 <= t < |s.counters| && t < |s.bounds| && t < |s'.counters| && t < |s'.bounds|
    && s'.counters[t] == s.counters[t] && s'.bounds[t] == s.bounds[t]
  }

  /** ... and its flags are as they were. */
  predicate SameSet(s: State, s': State, t: int) {
    SameCount(s, s', t) && |s'.states| == |s.states|
    && forall b :: 0 <= b < |s.states| && InSet(b, t) ==> s'.states[b] == s.states[b]
  }

  predicate OthersFlags(a: seq<int>, b: seq<int>, t: int) {
    |a| == |b| && forall k :: 0 <= k < |a| && !InSet(k, t) ==> b[k] == a[k]
  }

  /** A bucket of the set holds an element and has its flag up. */
  ghost predicate StaysFlagged(s: State, t: int) {
    exists b :: 0 <= b < |s.buckets| && b < |s.states| && InSet(b, t) && s.states[b] == NONEMPTY_BUCKET
        && s.buckets[b] != []
  }

  /** The flags of the buckets that hold elements have not changed. */
  predicate FlagsKept(s: State, states: seq<int>, t: int) {
    && |states| == |s.states|
    && forall b :: 0 <= b < |s.buckets| && b < |s.states| && InSet(b, t) && s.buckets[b] != [] ==>
         states[b] == s.states[b]
  }
}
