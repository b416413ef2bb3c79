/**
 The bucket queue of zm_mpbqueue.c: one consumer polls the buckets in sets of eight, backing off from
 sets it found empty, while producers go on appending.  A bucket stands for the linked part of its
 SWAP queue: what isempty_weak and dequeue of zm_swpqueue.c get to see.  This module says what one
 call of dequeue may do, and what exactly it does if nothing arrives meanwhile.
 */
module Buckets {
  type Value = int
  const NULL: Value := 0

  const SETSZ := 8
  const EMPTY_BUCKET := 0
  const NONEMPTY_BUCKET := 1
  const MAX_BACKOFF := 1024
  const INT_MAX := 0x7fff_ffff

  /** `states` are the buckets' flags; `counters` and `bounds` belong to sets of eight buckets. */
  datatype State = State(buckets: seq<seq<Value>>, states: seq<int>, counters: seq<int>, bounds: seq<int>, last: int)

  /** The increment of an int, which wraps around (in C it is undefined). */
  function Increment(c: int): int { if c == INT_MAX then -INT_MAX - 1 else c + 1 }

  predicate IsBackoff(b: int) { b in {1, 2, 4, 8, 16, 32, 64, 128, 256, 512, 1024} }

  function Sets(s: State): nat { |s.counters| }

  predicate Shaped(s: State) {
    Sets(s) >= 1 && |s.bounds| == Sets(s) && |s.buckets| == |s.states| == 8 * Sets(s) && 0 <= s.last < Sets(s)
  }

  ghost predicate Inv(s: State) {
    && Shaped(s)
    && (forall b :: 0 <= b < |s.states| ==> s.states[b] == EMPTY_BUCKET || s.states[b] == NONEMPTY_BUCKET)
    && (forall t :: 0 <= t < Sets(s) ==> -INT_MAX - 1 <= s.counters[t] <= INT_MAX && IsBackoff(s.bounds[t]))
    && (forall b :: 0 <= b < |s.buckets| ==> NULL !in s.buckets[b])
  }

  /** A queue as zm_mpbqueue_init leaves it. */
  ghost predicate New(s: State) {
    && Inv(s) && s.last == 0 && (forall b :: 0 <= b < |s.buckets| ==> s.buckets[b] == [] && s.states[b] == EMPTY_BUCKET)
    && (forall t :: 0 <= t < Sets(s) ==> s.counters[t] == 0 && s.bounds[t] == 1)
  }

  // ---------------------------------------------------------------- the flags of a set, read as one word

  /** Eight flag bytes as the 64-bit integer the code compares with zero. */
  function Word(fs: seq<int>): int {
    if fs == [] then 0 else fs[0] + 256 * Word(fs[1..])
  }

  lemma {:induction false} WordBounds(fs: seq<int>)
    requires forall j :: 0 <= j < |fs| ==> 0 <= fs[j] <= 1
    ensures Word(fs) >= 0
    ensures Word(fs) > 0 <==> exists j :: 0 <= j < |fs| && fs[j] == 1
  {
    if fs != [] {
      WordBounds(fs[1..]);
      if Word(fs[1..]) > 0 {
        var j :| 0 <= j < |fs[1..]| && fs[1..][j] == 1;
        assert fs[j + 1] == 1;
      } else if j :| 0 <= j < |fs| && fs[j] == 1 {
        assert j > 0 ==> fs[1..][j - 1] == 1;
      }
    }
  }

  // ---------------------------------------------------------------- what one call does

  /** Nothing leaves a bucket except at its front: producers only append. */
  predicate Grows(a: seq<seq<Value>>, b: seq<seq<Value>>) {
    |a| == |b| && forall k :: 0 <= k < |a| ==> a[k] <= b[k]
  }

  predicate InSet(b: int, t: int) { 8 * t <= b < 8 * t + SETSZ }

  /** Some bucket of set `t` holds a linked element. */
  ghost predicate HasElement(buckets: seq<seq<Value>>, t: int) {
    exists b :: 0 <= b < |buckets| && InSet(b, t) && buckets[b] != []
  }

  /** Some flag of set `t` is up. */
  ghost predicate Flagged(states: seq<int>, t: int) {
    exists b :: 0 <= b < |states| && InSet(b, t) && states[b] == NONEMPTY_BUCKET
  }

  /** If set `t` holds an element, none of its flags was up and its counter has gone up, to below its bound.  None
      of its flags is up in the end. */
  ghost predicate OneCloser(s: State, s': State, t: int) {
    && 0 <= t < |s.counters| && t < |s.bounds| && t < |s'.counters| && t < |s'.bounds|
    && (HasElement(s.buckets, t) ==>
          && !Flagged(s.states, t)
          && s'.counters[t] == Increment(s.counters[t]) < s.bounds[t] && s'.bounds[t] == s.bounds[t])
    && !Flagged(s'.states, t)
  }

  /** How many calls it takes at least to bring a set of a new queue where set `t` is: one to raise the
      counter on the way to the back-off bound, and two beyond it, because a look that finds an element
      leaves a flag up, which the next call has to take down. */
  ghost function Spent(s: State, t: int): int
    requires 0 <= t < |s.counters| && t < |s.bounds|
  {
    var c, bound := s.counters[t], s.bounds[t];
    if c < 0 then 2 * INT_MAX + 1 + (c + INT_MAX + 1)
    else if c < bound then bound - 1 + c
    else 2 * c - (if Flagged(s.states, t) then 1 else 0)
  }

  /** In a set that has had one poll, or none, the counter and the bound have moved by one call at most. */
  ghost predicate Aged(s: State, s': State, t: int) {
    && 0 <= t < |s.counters| && t < |s.bounds| && t < |s'.counters| && t < |s'.bounds|
    && Spent(s', t) <= Spent(s, t) + 1
  }

  /** A call that returns NULL removes nothing and starts at the same set next time, and every set that held an
      element has moved one closer to its back-off bound without reaching it. */
  ghost predicate Missed(s: State, s': State) {
    && Grows(s.buckets, s'.buckets) && Sets(s') == Sets(s) && s'.last == s.last
    && (forall t :: 0 <= t < Sets(s) ==> OneCloser(s, s', t))
  }

  /** `data` was the head of bucket `b`, and nothing else was removed. */
  predicate TookFrom(s: State, s': State, data: Value, b: int) {
    && |s.buckets| == |s'.buckets| && 0 <= b < |s.buckets|
    && s.buckets[b] <= [data] + s'.buckets[b]
    && forall c :: 0 <= c < |s.buckets| && c != b ==> s.buckets[c] <= s'.buckets[c]
  }

  /** The turn at which a poll that starts at `last` comes to set `t`. */
  function Turn(last: int, n: int, t: int): int { if t >= last then t - last else t - last + n }

  /** Bucket `b` is in set `t`, and the buckets before it there were empty. */
  predicate FirstOf(buckets: seq<seq<Value>>, t: int, b: int) {
    0 <= b < |buckets| && InSet(b, t) && 0 <= 8 * t && forall c :: 8 * t <= c < b ==> buckets[c] == []
  }

  /** The sets whose turn is before the `i`-th were missed. */
  ghost predicate EarlierMissed(s: State, s': State, i: int) {
    forall t :: 0 <= t < Sets(s) && Turn(s.last, Sets(s), t) < i ==> OneCloser(s, s', t)
  }

  /** Bucket `b` was the one to serve: the first of its set that was not empty, and all sets between the one the
      last call ended with and this one were missed.  The next call starts with its set. */
  ghost predicate Served(s: State, s': State, b: int) {
    && 0 <= s'.last < Sets(s) && FirstOf(s.buckets, s'.last, b)
    && EarlierMissed(s, s', Turn(s.last, Sets(s), s'.last))
  }

  /** With no producer at work: bucket `b` has lost its head, and nothing else has changed. */
  predicate QuietTook(s: State, s': State, data: Value, b: int) {
    && 0 <= b < |s.buckets| == |s'.buckets|
    && s.buckets[b] == [data] + s'.buckets[b] && s'.buckets == s.buckets[b := s'.buckets[b]]
  }

  /** What a dequeue call may do, whatever producers do meanwhile. */
  ghost predicate Call(s: State, s': State, data: Value) {
    && Inv(s') && |s'.buckets| == |s.buckets| && Sets(s') == Sets(s)
    && (forall t :: 0 <= t < Sets(s) ==> Aged(s, s', t))
    && (data == NULL ==> Missed(s, s'))
    && (data != NULL ==> exists b :: TookFrom(s, s', data, b) && Served(s, s', b))
  }

  function Size(buckets: seq<seq<Value>>): nat {
    if buckets == [] then 0 else |buckets[0]| + Size(buckets[1..])
  }

  /** The call with no producer at work: exactly the element returned is gone. */
  ghost predicate QuietCall(s: State, s': State, data: Value) {
    Call(s, s', data) && Size(s'.buckets) + (if data == NULL then 0 else 1) == Size(s.buckets)
    && (data == NULL ==> s'.buckets == s.buckets)
  }

  lemma {:induction false} SizeZero(buckets: seq<seq<Value>>)
    ensures Size(buckets) == 0 <==> forall b :: 0 <= b < |buckets| ==> buckets[b] == []
  {
    if buckets != [] {
      SizeZero(buckets[1..]);
      assert forall b :: 0 < b < |buckets| ==> buckets[b] == buckets[1..][b - 1];
    }
  }

  lemma {:induction false} SizeAfter(a: seq<seq<Value>>, b: nat, x: seq<Value>)
    requires b < |a|
    ensures Size(a[b := x]) + |a[b]| == Size(a) + |x|
  {
    if b > 0 {
      assert a[b := x][1..] == a[1..][b - 1 := x];
      SizeAfter(a[1..], b - 1, x);
    } else {
      assert a[b := x][1..] == a[1..];
    }
  }

  // ---------------------------------------------------------------- a call that nobody interrupts

  datatype Outcome = Outcome(s: State, data: Value)

  /** The first bucket of set `t`, from the `j`-th on, that holds an element. */
  function First(buckets: seq<seq<Value>>, t: nat, j: nat): (k: nat)
    requires 8 * t + SETSZ <= |buckets| && j <= SETSZ
    ensures j <= k <= SETSZ && (k < SETSZ ==> buckets[8 * t + k] != [])
    ensures forall b :: 8 * t + j <= b < 8 * t + k ==> buckets[b] == []
    decreases SETSZ - j
  {
    if j == SETSZ || buckets[8 * t + j] != [] then j else First(buckets, t, j + 1)
  }

  /** The flags after the first `j` of set `t` have been taken down. */
  function Cleared(states: seq<int>, t: nat, j: nat): (r: seq<int>)
    requires 8 * t + j <= |states|
    ensures |r| == |states|
    ensures forall b :: 0 <= b < |r| ==> r[b] == if 8 * t <= b < 8 * t + j then EMPTY_BUCKET else states[b]
  {
    if j == 0 then states else Cleared(states, t, j - 1)[8 * t + j - 1 := EMPTY_BUCKET]
  }

  /** The set polled at turn `i`. */
  function SetAt(last: int, n: int, i: int): int
    requires n != 0
  {
    (last + i) % n
  }

  lemma SetInRange(last: int, n: int, i: int)
    requires n > 0
    ensures 0 <= SetAt(last, n, i) < n
  {
  }

  /** What get_set_state leaves; its answer is whether a flag is up then. */
  ghost function Looked(s: State, t: nat): (r: State)
    requires Shaped(s) && t < Sets(s)
    ensures Shaped(r) && Sets(r) == Sets(s) && r.last == s.last
  {
    var c, j := Increment(s.counters[t]), First(s.buckets, t, 0);
    if Flagged(s.states, t) then s
    else if c < s.bounds[t] then s.(counters := s.counters[t := c])
    else if j < SETSZ then s.(counters := s.counters[t := c], states := s.states[8 * t + j := NONEMPTY_BUCKET])
    else s.(counters := s.counters[t := 0],
            bounds := s.bounds[t := if s.bounds[t] < MAX_BACKOFF then s.bounds[t] * 2 else s.bounds[t]])
  }

  /** What the inner loop of zm_mpbqueue_dequeue does to set `t`. */
  ghost function Taken(s: State, t: nat): (r: Outcome)
    requires Shaped(s) && t < Sets(s)
    ensures Shaped(r.s) && Sets(r.s) == Sets(s) && r.s.last == s.last
  {
    var j := First(s.buckets, t, 0);
    var b, s1 := 8 * t + j, s.(states := Cleared(s.states, t, j));
    if j == SETSZ then Outcome(s1, NULL)
    else Outcome(s1.(buckets := s.buckets[b := s.buckets[b][1..]]), s.buckets[b][0])
  }

  /** One turn of the outer loop. */
  ghost function PolledSet(s: State, t: nat): (r: Outcome)
    requires Shaped(s) && t < Sets(s)
    ensures Shaped(r.s) && Sets(r.s) == Sets(s) && r.s.last == s.last
  {
    var s1 := Looked(s, t);
    if Flagged(s1.states, t) then Taken(s1, t) else Outcome(s1, NULL)
  }

  /** The outer loop from its `i`-th turn on. */
  ghost function PolledFrom(s: State, i: nat): Outcome
    requires Shaped(s) && i <= Sets(s)
    decreases Sets(s) - i
  {
    SetInRange(s.last, Sets(s), i);
    if i == Sets(s) then Outcome(s.(last := SetAt(s.last, Sets(s), i)), NULL)
    else
      var r := PolledSet(s, SetAt(s.last, Sets(s), i));
      if r.data == NULL then PolledFrom(r.s, i + 1) else Outcome(r.s.(last := SetAt(s.last, Sets(s), i)), r.data)
  }

  /** zm_mpbqueue_dequeue while no producer is at work. */
  ghost function Alone(s: State): Outcome
    requires Shaped(s)
  {
    PolledFrom(s, 0)
  }
}
