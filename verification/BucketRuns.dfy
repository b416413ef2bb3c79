/**
 The bucket queue over whole runs: how long an element may wait, how fast the queue drains, and how many
 calls it takes until the 32-bit counters of the back-off break both bounds.
 */
module BucketRuns {
  import opened Buckets

  // ---------------------------------------------------------------- runs

  /** Elements arrive, or the consumer calls dequeue; `alone` says that nothing arrived during the call. */
  datatype Act = Arrival | Dequeue(data: Value, alone: bool)

  ghost predicate Happens(s: State, s': State, a: Act) {
    match a
    case Arrival => Inv(s') && Grows(s.buckets, s'.buckets) && s' == s.(buckets := s'.buckets)
    case Dequeue(data, alone) =>
      Call(s, s', data) && (alone ==> Shaped(s) && QuietCall(s, s', data) && Alone(s) == Outcome(s', data))
  }

  ghost predicate IsRun(run: seq<State>, acts: seq<Act>) {
    |run| == |acts| + 1 && forall k :: 0 <= k < |acts| ==> Happens(run[k], run[k + 1], acts[k])
  }

  /** How many of the acts from the `i`-th up to the `k`-th are calls. */
  function Calls(acts: seq<Act>, i: nat, k: nat): nat
    requires i <= k <= |acts|
  {
    if i == k then 0 else Calls(acts, i, k - 1) + if acts[k - 1].Dequeue? then 1 else 0
  }

  function AllCalls(acts: seq<Act>): nat { Calls(acts, 0, |acts|) }

  predicate FindsNothing(a: Act) { a.Arrival? || a.data == NULL }

  predicate NothingFound(acts: seq<Act>, i: nat) { forall k :: i <= k < |acts| ==> FindsNothing(acts[k]) }

  predicate AllAlone(acts: seq<Act>) { forall k :: 0 <= k < |acts| ==> acts[k].Arrival? || acts[k].alone }

  lemma {:induction false} CallsSplit(acts: seq<Act>, i: nat, k: nat)
    requires i <= k <= |acts|
    ensures Calls(acts, 0, k) == Calls(acts, 0, i) + Calls(acts, i, k)
  {
    if i < k { CallsSplit(acts, i, k - 1); }
  }

  /** No set is further than so many calls can bring it. */
  ghost predicate AgedAll(s: State, calls: nat) { Inv(s) && forall t :: 0 <= t < Sets(s) ==> Spent(s, t) <= calls }

  lemma NewIsYoung(s: State)
    requires New(s)
    ensures AgedAll(s, 0)
  {
  }

  lemma HappensAges(s: State, s': State, a: Act, calls: nat)
    requires AgedAll(s, calls) && Happens(s, s', a)
    ensures AgedAll(s', calls + if a.Dequeue? then 1 else 0) && Sets(s') == Sets(s) && |s'.buckets| == |s.buckets|
  {
    if a.Dequeue? {
      forall t | 0 <= t < Sets(s') ensures Spent(s', t) <= calls + 1 { assert Aged(s, s', t); }
    } else {
      forall t | 0 <= t < Sets(s') ensures Spent(s', t) <= calls { assert Spent(s, t) <= calls; }
    }
  }

  lemma {:induction false} RunAges(run: seq<State>, acts: seq<Act>, k: nat)
    requires IsRun(run, acts) && New(run[0]) && k <= |acts|
    ensures AgedAll(run[k], Calls(acts, 0, k))
  {
    if k > 0 {
      RunAges(run, acts, k - 1);
      assert Happens(run[k - 1], run[k], acts[k - 1]);
      hide AgedAll, Happens, New;
      HappensAges(run[k - 1], run[k], acts[k - 1], Calls(acts, 0, k - 1));
    } else {
      NewIsYoung(run[0]);
    }
  }

  // ---------------------------------------------------------------- latency

  /** How many calls a queue serves within the bounds below. */
  const PROMPT_CALLS := 2 * INT_MAX + 1023

  /** What so many misses in a row have done to the counter of a set that held an element all the time:
      it has counted them, unless it has wrapped around, which only an old queue does. */
  predicate Backed(s: State, t: int, misses: nat, calls: nat)
    requires 0 <= t < |s.counters| && t < |s.bounds|
  {
    if s.counters[t] >= 0 then s.counters[t] >= misses && (misses > 0 ==> s.counters[t] < s.bounds[t])
    else 2 * INT_MAX + misses <= calls
  }

  lemma BackedStarts(s: State, t: int, calls: nat)
    requires AgedAll(s, calls) && 0 <= t < Sets(s)
    ensures Backed(s, t, 0, calls)
  {
    assert Spent(s, t) <= calls;
  }

  lemma BackedOn(s: State, s': State, t: int, misses: nat, calls: nat)
    requires AgedAll(s, calls) && 0 <= t < Sets(s) && HasElement(s.buckets, t) && OneCloser(s, s', t)
    requires Backed(s, t, misses, calls) && calls < PROMPT_CALLS
    ensures Backed(s', t, misses + 1, calls + 1)
  {
    assert Spent(s, t) <= calls && IsBackoff(s.bounds[t]);
  }

  lemma BackedIsShort(s: State, t: int, misses: nat, calls: nat)
    requires Inv(s) && 0 <= t < Sets(s) && Backed(s, t, misses, calls) && calls <= PROMPT_CALLS
    ensures misses <= 1023
  {
    assert IsBackoff(s.bounds[t]);
  }

  /** Bucket `b` holds an element, and there have been so many misses since it does. */
  ghost predicate Waiting(s: State, b: nat, misses: nat, calls: nat) {
    && AgedAll(s, calls) && b < |s.buckets| && s.buckets[b] != []
    && b / SETSZ < Sets(s) && Backed(s, b / SETSZ, misses, calls)
  }

  lemma WaitingOn(s: State, s': State, a: Act, b: nat, misses: nat, calls: nat)
    requires Waiting(s, b, misses, calls) && Happens(s, s', a) && FindsNothing(a)
             && (a.Dequeue? ==> calls < PROMPT_CALLS)
    ensures var one := if a.Dequeue? then 1 else 0; Waiting(s', b, misses + one, calls + one)
  {
    HappensAges(s, s', a, calls);
    assert s.buckets[b] <= s'.buckets[b];
    if a.Dequeue? {
      var t := b / SETSZ;
      assert InSet(b, t) && HasElement(s.buckets, t) && OneCloser(s, s', t);
      hide Inv, OneCloser, Happens;
      BackedOn(s, s', t, misses, calls);
    }
  }

  /** While a bucket holds an element every miss counts towards its set's back-off bound. */
  lemma {:induction false} MissesCount(run: seq<State>, acts: seq<Act>, b: nat, i: nat, k: nat)
    requires IsRun(run, acts) && New(run[0]) && i <= k <= |acts| && NothingFound(acts, i)
    requires b < |run[i].buckets| && run[i].buckets[b] != [] && Calls(acts, 0, k) <= PROMPT_CALLS
    ensures Waiting(run[k], b, Calls(acts, i, k), Calls(acts, 0, k))
  {
    if k > i {
      MissesCount(run, acts, b, i, k - 1);
      assert Happens(run[k - 1], run[k], acts[k - 1]) && FindsNothing(acts[k - 1]);
      hide Happens, New, Waiting;
      WaitingOn(run[k - 1], run[k], acts[k - 1], b, Calls(acts, i, k - 1), Calls(acts, 0, k - 1));
    } else {
      RunAges(run, acts, i);
      BackedStarts(run[i], b / SETSZ, Calls(acts, 0, i));
    }
  }

  /** From wherever a bucket holds an element, at most 1023 calls in a row return NULL. */
  ghost predicate Prompt(run: seq<State>, acts: seq<Act>)
    requires |run| == |acts| + 1
  {
    forall i, b {:trigger run[i].buckets[b]} :: 0 <= i <= |acts| && 0 <= b < |run[i].buckets| ==>
      run[i].buckets[b] != [] && NothingFound(acts, i) ==> Calls(acts, i, |acts|) <= 1023
  }

  /** A queue is prompt as long as its dequeue has been called at most PROMPT_CALLS times, whatever
      producers do. */
  lemma Latency(run: seq<State>, acts: seq<Act>)
    requires IsRun(run, acts) && New(run[0]) && AllCalls(acts) <= PROMPT_CALLS
    ensures Prompt(run, acts)
  {
    forall i, b | 0 <= i <= |acts| && 0 <= b < |run[i].buckets| && run[i].buckets[b] != [] && NothingFound(acts, i)
      ensures Calls(acts, i, |acts|) <= 1023
    {
      MissesCount(run, acts, b, i, |acts|);
      BackedIsShort(run[|acts|], b / SETSZ, Calls(acts, i, |acts|), AllCalls(acts));
    }
  }

  // ---------------------------------------------------------------- a queue whose counter wraps around

  const WITNESS: Value := 7

  /** A queue of one set, whose first bucket may hold an element or have its flag up. */
  function Single(counter: int, element: bool, flag: bool): State {
    State([if element then [WITNESS] else []] + seq(7, _ => []),
          [if flag then NONEMPTY_BUCKET else EMPTY_BUCKET] + seq(7, _ => EMPTY_BUCKET),
          [counter], [1], 0)
  }

  lemma FirstNone(buckets: seq<seq<Value>>, t: nat)
    requires 8 * t + SETSZ <= |buckets| && forall b :: InSet(b, t) ==> buckets[b] == []
    ensures First(buckets, t, 0) == SETSZ
  {
    var k := First(buckets, t, 0);
    assert k < SETSZ ==> InSet(8 * t + k, t);
  }

  lemma SingleIsQueue(counter: int, element: bool, flag: bool)
    requires -INT_MAX - 1 <= counter <= INT_MAX
    ensures Inv(Single(counter, element, flag))
    ensures HasElement(Single(counter, element, flag).buckets, 0) <==> element
    ensures Flagged(Single(counter, element, flag).states, 0) <==> flag
    ensures Size(Single(counter, element, flag).buckets) == if element then 1 else 0
  {
    var s := Single(counter, element, flag);
    if element {
      assert s.buckets[0] != [] && InSet(0, 0);
      SizeAfter(s.buckets, 0, []);
    }
    SizeZero(s.buckets[0 := []]);
    if flag { assert s.states[0] == NONEMPTY_BUCKET && InSet(0, 0); }
    assert s.buckets[0 := []] == if element then s.buckets[0 := []] else s.buckets;
  }

  /** One poll is the whole call. */
  lemma SinglePoll(s: State, s': State)
    requires Shaped(s) && Sets(s) == 1 && s.last == 0 && s' == PolledSet(s, 0).s
    ensures Alone(s) == Outcome(s', PolledSet(s, 0).data)
  {
    var data := PolledSet(s, 0).data;
    assert SetAt(s.last, Sets(s), 0) == 0 && SetAt(s'.last, Sets(s'), 1) == 0;
    hide PolledSet, SetAt;
    if data == NULL { assert PolledFrom(s', 1) == Outcome(s', NULL); }
    assert PolledFrom(s, 0) == Outcome(s', data);
  }

  lemma Arrives(c: int)
    requires 0 <= c <= INT_MAX
    ensures Happens(Single(c, false, false), Single(c, true, false), Arrival)
  {
    SingleIsQueue(c, true, false);
  }

  /** A look finds the element and leaves its flag up: the counter has grown and is not reset. */
  lemma Finds(c: int)
    requires 0 <= c < INT_MAX
    ensures Happens(Single(c, true, false), Single(c + 1, false, true), Dequeue(WITNESS, true))
  {
    var s, s' := Single(c, true, false), Single(c + 1, false, true);
    SingleIsQueue(c, true, false);
    SingleIsQueue(c + 1, false, true);
    var s1 := Looked(s, 0);
    assert s1 == Single(c + 1, true, true);
    SingleIsQueue(c + 1, true, true);
    assert First(s1.buckets, 0, 0) == 0 && Cleared(s1.states, 0, 0) == s1.states;
    assert s1.buckets[0] == [WITNESS] && s1.buckets[0][1..] == [];
    assert s1.buckets[0 := []] == s'.buckets;
    assert Taken(s1, 0) == Outcome(s', WITNESS);
    SinglePoll(s, s');
    hide Inv, Flagged, HasElement, Size;
    assert TookFrom(s, s', WITNESS, 0);
    assert Aged(s, s', 0);
  }

  /** The next call takes the flag down. */
  lemma Clears(c: int)
    requires 0 < c <= INT_MAX
    ensures Happens(Single(c, false, true), Single(c, false, false), Dequeue(NULL, true))
  {
    var s, s' := Single(c, false, true), Single(c, false, false);
    SingleIsQueue(c, false, true);
    SingleIsQueue(c, false, false);
    FirstNone(s.buckets, 0);
    assert Taken(s, 0) == Outcome(s', NULL);
    SinglePoll(s, s');
    hide Inv, Flagged, HasElement, Size;
    assert Aged(s, s', 0) && OneCloser(s, s', 0);
  }

  /** At INT_MAX the counter wraps around, and as long as it is negative the element is not found. */
  lemma Overlooks(c: int)
    requires -INT_MAX - 1 <= c < 0 || c == INT_MAX
    ensures Happens(Single(c, true, false), Single(Increment(c), true, false), Dequeue(NULL, true))
  {
    var s, s' := Single(c, true, false), Single(Increment(c), true, false);
    SingleIsQueue(c, true, false);
    SingleIsQueue(Increment(c), true, false);
    assert Looked(s, 0) == s';
    SinglePoll(s, s');
    hide Inv, Flagged, HasElement, Size;
    assert Aged(s, s', 0) && OneCloser(s, s', 0);
  }

  lemma {:induction false} CallsOn(acts: seq<Act>, a: Act, i: nat, k: nat)
    requires i <= k <= |acts|
    ensures Calls(acts + [a], i, k) == Calls(acts, i, k)
  {
    if i < k { CallsOn(acts, a, i, k - 1); }
  }

  lemma RunOn(run: seq<State>, acts: seq<Act>, s': State, a: Act)
    requires IsRun(run, acts) && Happens(run[|acts|], s', a)
    ensures |run| == |acts| + 1 && IsRun(run + [s'], acts + [a]) && (run + [s'])[|acts| + 1] == s'
            && (run + [s'])[0] == run[0]
    ensures AllCalls(acts + [a]) == AllCalls(acts) + if a.Dequeue? then 1 else 0
  {
    hide Happens;
    CallsOn(acts, a, 0, |acts|);
  }

  /** Elements that come one at a time, each to be found by a look: two calls raise the counter by one. */
  lemma {:induction false} SteadyLoad(k: nat) returns (run: seq<State>, acts: seq<Act>)
    requires k <= INT_MAX
    ensures IsRun(run, acts) && run[0] == Single(0, false, false) && run[|acts|] == Single(k, false, false)
    ensures AllCalls(acts) == 2 * k && AllAlone(acts)
  {
    hide Happens, IsRun, AllCalls;
    if k == 0 {
      run, acts := [Single(0, false, false)], [];
      NoRun(run[0]);
    } else {
      run, acts := SteadyLoad(k - 1);
      Arrives(k - 1);
      Finds(k - 1);
      Clears(k);
      RunOn(run, acts, Single(k - 1, true, false), Arrival);
      run, acts := run + [Single(k - 1, true, false)], acts + [Arrival];
      RunOn(run, acts, Single(k, false, true), Dequeue(WITNESS, true));
      run, acts := run + [Single(k, false, true)], acts + [Dequeue(WITNESS, true)];
      RunOn(run, acts, Single(k, false, false), Dequeue(NULL, true));
      run, acts := run + [Single(k, false, false)], acts + [Dequeue(NULL, true)];
    }
  }

  lemma NoRun(s: State)
    ensures IsRun([s], []) && AllCalls([]) == 0
  {
  }

  /** After that an element comes and is overlooked `m` times. */
  lemma {:induction false} Starved(m: nat) returns (run: seq<State>, acts: seq<Act>, i: nat)
    requires m <= INT_MAX
    ensures IsRun(run, acts) && run[0] == Single(0, false, false) && AllAlone(acts) && AllCalls(acts) == 2 * INT_MAX + m
    ensures i <= |acts| && run[i] == Single(INT_MAX, true, false) && |acts| == i + m
    ensures forall k :: i <= k < |acts| ==> acts[k] == Dequeue(NULL, true)
    ensures run[|acts|] == Single(if m == 0 then INT_MAX else m - INT_MAX - 2, true, false)
  {
    hide Happens, IsRun, AllCalls;
    if m == 0 {
      run, acts := SteadyLoad(INT_MAX);
      Arrives(INT_MAX);
      RunOn(run, acts, Single(INT_MAX, true, false), Arrival);
      run, acts := run + [Single(INT_MAX, true, false)], acts + [Arrival];
      i := |acts|;
    } else {
      run, acts, i := Starved(m - 1);
      var c := if m == 1 then INT_MAX else m - INT_MAX - 3;
      Overlooks(c);
      RunOn(run, acts, Single(Increment(c), true, false), Dequeue(NULL, true));
      run, acts := run + [Single(Increment(c), true, false)], acts + [Dequeue(NULL, true)];
    }
  }

  lemma {:induction false} OnlyCalls(acts: seq<Act>, i: nat, k: nat)
    requires i <= k <= |acts| && forall j :: i <= j < |acts| ==> acts[j].Dequeue?
    ensures Calls(acts, i, k) == k - i
  {
    if i < k { OnlyCalls(acts, i, k - 1); }
  }

  /** One call more than PROMPT_CALLS may be too many, even if no call is ever interrupted. */
  lemma TooManyCalls() returns (run: seq<State>, acts: seq<Act>)
    ensures IsRun(run, acts) && New(run[0]) && AllAlone(acts) && AllCalls(acts) == PROMPT_CALLS + 1
    ensures !Prompt(run, acts) && !Drains(run, acts)
  {
    hide Happens, Calls, Size, HasElement, Flagged, Found;
    var i: nat;
    run, acts, i := Starved(1024);
    SingleIsQueue(0, false, false);
    SingleIsQueue(INT_MAX, true, false);
    SingleIsQueue(1022 - INT_MAX, true, false);
    assert run[i].buckets[0] != [] && NothingFound(acts, i);
    OnlyCalls(acts, i, |acts|);
    assert QuietFrom(acts, i);
  }

  /** All runs of a new queue with so many dequeue calls are prompt exactly up to PROMPT_CALLS, with or
      without interruptions. */
  lemma LatencyExactly(calls: nat, alone: bool)
    ensures calls <= PROMPT_CALLS <==>
            forall run, acts | IsRun(run, acts) && New(run[0]) && AllCalls(acts) <= calls
                && (alone ==> AllAlone(acts)) ::
              Prompt(run, acts)
  {
    hide Happens, New, AllCalls, Prompt;
    if calls <= PROMPT_CALLS {
      forall run, acts | IsRun(run, acts) && New(run[0]) && AllCalls(acts) <= calls ensures Prompt(run, acts) {
        Latency(run, acts);
      }
    } else {
      var run, acts := TooManyCalls();
    }
  }

  // ---------------------------------------------------------------- drain

  /** How many of these acts returned an element. */
  function Found(acts: seq<Act>, i: nat, k: nat): nat
    requires i <= k <= |acts|
  {
    if i == k then 0 else Found(acts, i, k - 1) + if FindsNothing(acts[k - 1]) then 0 else 1
  }

  /** From the `i`-th act on there are only calls, and nothing arrives. */
  predicate QuietFrom(acts: seq<Act>, i: nat) { forall k :: i <= k < |acts| ==> acts[k].Dequeue? && acts[k].alone }

  lemma ElementSomewhere(s: State) returns (t: int)
    requires Inv(s) && Size(s.buckets) > 0
    ensures 0 <= t < Sets(s) && HasElement(s.buckets, t)
  {
    SizeZero(s.buckets);
    var b :| 0 <= b < |s.buckets| && s.buckets[b] != [];
    t := b / SETSZ;
    assert InSet(b, t);
  }

  /** The state after `n` calls, `found` of which returned an element, and none of the last `misses`. */
  ghost predicate Paced(s: State, size: nat, calls: nat, n: nat, found: nat, misses: nat) {
    && AgedAll(s, calls)
    && found + Size(s.buckets) == size && n <= 1024 * found + misses
    && forall t :: 0 <= t < Sets(s) && HasElement(s.buckets, t) ==> Backed(s, t, misses, calls)
  }

  lemma PacedOn(s: State, s': State, a: Act, size: nat, calls: nat, n: nat, found: nat, misses: nat)
    requires Paced(s, size, calls, n, found, misses) && Happens(s, s', a) && a.Dequeue? && a.alone
             && calls < PROMPT_CALLS
    ensures Paced(s', size, calls + 1, n + 1, if a.data == NULL then found else found + 1,
                  if a.data == NULL then misses + 1 else 0)
  {
    HappensAges(s, s', a, calls);
    hide Inv, HasElement, Alone, Aged;
    if a.data == NULL {
      forall t | 0 <= t < Sets(s') && HasElement(s'.buckets, t) ensures Backed(s', t, misses + 1, calls + 1) {
        assert OneCloser(s, s', t);
        BackedOn(s, s', t, misses, calls);
      }
    } else {
      var t := ElementSomewhere(s);
      BackedIsShort(s, t, misses, calls);
      forall u | 0 <= u < Sets(s') && HasElement(s'.buckets, u) ensures Backed(s', u, 0, calls + 1) {
        BackedStarts(s', u, calls + 1);
      }
    }
  }

  lemma PacedStarts(s: State, calls: nat)
    requires AgedAll(s, calls)
    ensures Paced(s, Size(s.buckets), calls, 0, 0, 0)
  {
    forall t | 0 <= t < Sets(s) ensures Backed(s, t, 0, calls) { BackedStarts(s, t, calls); }
  }

  lemma {:induction false} Pace(run: seq<State>, acts: seq<Act>, i: nat, k: nat) returns (misses: nat)
    requires IsRun(run, acts) && New(run[0]) && i <= k <= |acts| && QuietFrom(acts, i)
             && Calls(acts, 0, k) <= PROMPT_CALLS
    ensures Paced(run[k], Size(run[i].buckets), Calls(acts, 0, k), k - i, Found(acts, i, k), misses)
  {
    hide Paced, Happens, New, Size, AgedAll;
    if k > i {
      var before := Pace(run, acts, i, k - 1);
      var a := acts[k - 1];
      assert Happens(run[k - 1], run[k], a);
      misses := if a.data == NULL then before + 1 else 0;
      hide IsRun;
      PacedOn(run[k - 1], run[k], a, Size(run[i].buckets), Calls(acts, 0, k - 1), k - 1 - i, Found(acts, i, k - 1),
          before);
    } else {
      misses := 0;
      RunAges(run, acts, i);
      PacedStarts(run[i], Calls(acts, 0, i));
    }
  }

  /** Once producers have stopped, M elements are drained within 1024 * M calls. */
  ghost predicate Drains(run: seq<State>, acts: seq<Act>)
    requires |run| == |acts| + 1
  {
    forall i: nat {:trigger QuietFrom(acts, i)} :: i <= |acts| && QuietFrom(acts, i) ==>
      |acts| - i >= 1024 * Size(run[i].buckets) ==>
      Size(run[|acts|].buckets) == 0 && Found(acts, i, |acts|) == Size(run[i].buckets)
  }

  lemma DrainedAtPace(s: State, size: nat, calls: nat, n: nat, found: nat, misses: nat)
    requires Paced(s, size, calls, n, found, misses) && n >= 1024 * size && calls <= PROMPT_CALLS
    ensures Size(s.buckets) == 0 && found == size
  {
    hide HasElement;
    if Size(s.buckets) > 0 {
      var t := ElementSomewhere(s);
      BackedIsShort(s, t, misses, calls);
    }
  }

  lemma DrainsInTime(run: seq<State>, acts: seq<Act>)
    requires IsRun(run, acts) && New(run[0]) && AllCalls(acts) <= PROMPT_CALLS
    ensures Drains(run, acts)
  {
    hide New, Calls, Size, Found, Paced, Happens;
    forall i: nat | i <= |acts| && QuietFrom(acts, i) && |acts| - i >= 1024 * Size(run[i].buckets)
      ensures Size(run[|acts|].buckets) == 0 && Found(acts, i, |acts|) == Size(run[i].buckets)
    {
      var misses := Pace(run, acts, i, |acts|);
      DrainedAtPace(run[|acts|], Size(run[i].buckets), AllCalls(acts), |acts| - i, Found(acts, i, |acts|), misses);
    }
  }

  /** All runs of a new queue with so many dequeue calls drain in time exactly up to PROMPT_CALLS. */
  lemma DrainsExactly(calls: nat, alone: bool)
    ensures calls <= PROMPT_CALLS <==>
            forall run, acts | IsRun(run, acts) && New(run[0]) && AllCalls(acts) <= calls
                && (alone ==> AllAlone(acts)) ::
              Drains(run, acts)
  {
    hide Happens, New, AllCalls, Drains;
    if calls <= PROMPT_CALLS {
      forall run, acts | IsRun(run, acts) && New(run[0]) && AllCalls(acts) <= calls ensures Drains(run, acts) {
        DrainsInTime(run, acts);
      }
    } else {
      var run, acts := TooManyCalls();
    }
  }
}
