/** The back-off of the bucket queue: how seldom the consumer looks at the buckets of a queue that stays empty. */
module BucketBackoff {
  import opened Arith
  import opened Buckets
  import opened BucketRuns
  import Q = BucketQueue

  /** Set `t` holds nothing, and no flag says otherwise. */
  ghost predicate Rests(s: State, t: int) { !HasElement(s.buckets, t) && !Flagged(s.states, t) }

  ghost predicate AllRest(s: State) { Shaped(s) && forall t :: 0 <= t < Sets(s) ==> Rests(s, t) }

  /** One call more or, at the bound, a look that finds nothing, after which twice as many calls go by up to
      the next one. */
  predicate CountsOn(s: State, s': State, t: int) {
    && 0 <= t < |s.counters| == |s'.counters| && t < |s.bounds| == |s'.bounds|
    && var c, bound := s.counters[t], s.bounds[t];
       if Increment(c) < bound then s'.counters[t] == Increment(c) && s'.bounds[t] == bound
       else s'.counters[t] == 0 && s'.bounds[t] == if bound < MAX_BACKOFF then bound * 2 else bound
  }

  /** The first `i` sets in the order of the poll have been counted, the others are as they were. */
  ghost predicate CountedAt(s0: State, s: State, t: int, i: int) {
    && 0 <= t < |s0.counters| == |s.counters| && t < |s0.bounds| == |s.bounds|
    && if Turn(s0.last, Sets(s0), t) < i then CountsOn(s0, s, t)
       else s.counters[t] == s0.counters[t] && s.bounds[t] == s0.bounds[t]
  }

  /** Nothing but counters and bounds has changed. */
  predicate OnlyCounts(s0: State, s: State) {
    Shaped(s) && s.buckets == s0.buckets && s.states == s0.states && s.last == s0.last && Sets(s) == Sets(s0)
  }

  lemma PollRests(s: State, t: nat)
    requires Shaped(s) && t < Sets(s) && Rests(s, t)
    ensures var r := PolledSet(s, t);
            && r.data == NULL && OnlyCounts(s, r.s) && CountsOn(s, r.s, t)
            && forall u :: 0 <= u < Sets(s) && u != t ==>
                 r.s.counters[u] == s.counters[u] && r.s.bounds[u] == s.bounds[u]
  {
    var k := First(s.buckets, t, 0);
    assert k < SETSZ ==> InSet(8 * t + k, t) && HasElement(s.buckets, t);
    hide HasElement, Flagged, First;
  }

  lemma CountedOn(s0: State, s: State, s1: State, t: int, i: int, next: int, offset: int)
    requires 0 <= t < Sets(s0) && 0 <= offset < Sets(s0) && 0 <= s0.last < Sets(s0)
             && Turn(s0.last, Sets(s0), offset) == i && next == i + 1
    requires CountedAt(s0, s, t, i) && Sets(s1) == Sets(s) && |s1.bounds| == |s.bounds|
    requires if t == offset then CountsOn(s, s1, t) else s1.counters[t] == s.counters[t] && s1.bounds[t] == s.bounds[t]
    ensures CountedAt(s0, s1, t, next)
  {
  }

  lemma {:induction false} RestFrom(s0: State, s: State, i: nat)
    requires Shaped(s0) && AllRest(s0) && OnlyCounts(s0, s) && i <= Sets(s0)
    requires forall t :: 0 <= t < Sets(s0) ==> CountedAt(s0, s, t, i)
    ensures var r := PolledFrom(s, i);
            r.data == NULL && OnlyCounts(s0, r.s) && forall t :: 0 <= t < Sets(s0) ==> CountedAt(s0, r.s, t, Sets(s0))
    decreases Sets(s0) - i
  {
    Q.LastTurn(s.last, Sets(s), i);
    if i < Sets(s0) {
      var offset := SetAt(s.last, Sets(s), i);
      assert Rests(s0, offset);
      hide HasElement, Flagged;
      PollRests(s, offset);
      var s1 := PolledSet(s, offset).s;
      hide PolledSet, Rests, SetAt;
      var next := i + 1;
      forall t | 0 <= t < Sets(s0) ensures CountedAt(s0, s1, t, next) {
        assert CountedAt(s0, s, t, i);
        CountedOn(s0, s, s1, t, i, next, offset);
      }
      RestFrom(s0, s1, next);
    }
  }

  /** A call on a queue that holds nothing and has no flag up counts in every set and does nothing else. */
  lemma RestingCall(s: State, t: int)
    requires AllRest(s) && 0 <= t < Sets(s)
    ensures var r := Alone(s); r.data == NULL && AllRest(r.s) && OnlyCounts(s, r.s) && CountsOn(s, r.s, t)
  {
    hide CountsOn, HasElement, Flagged, PolledFrom;
    RestFrom(s, s, 0);
    var r := Alone(s).s;
    assert CountedAt(s, r, t, Sets(s));
    forall u | 0 <= u < Sets(r) ensures Rests(r, u) { assert Rests(s, u); }
  }

  // ---------------------------------------------------------------- over runs

  /** The queue holds nothing and has no flag up; set `t` has counted `c` calls towards its bound. */
  ghost predicate Counting(s: State, t: nat, c: int, bound: int) {
    AllRest(s) && t < Sets(s) && s.counters[t] == c && s.bounds[t] == bound
  }

  lemma CountingOn(s: State, s': State, t: nat, c: nat, bound: nat)
    requires Counting(s, t, c, bound) && c < bound <= MAX_BACKOFF && Shaped(s) && Alone(s).s == s'
    ensures Counting(s', t, if c + 1 < bound then c + 1 else 0,
                     if c + 1 < bound || bound == MAX_BACKOFF then bound else bound * 2)
  {
    hide Rests, Alone;
    RestingCall(s, t);
  }

  lemma QuietAct(run: seq<State>, acts: seq<Act>, i: nat, k: nat)
    requires IsRun(run, acts) && QuietFrom(acts, i) && i <= k < |acts|
    ensures Shaped(run[k]) && Alone(run[k]).s == run[k + 1]
  {
    assert Happens(run[k], run[k + 1], acts[k]) && acts[k].alone;
    hide Call, QuietCall, Alone;
  }

  /** One call more in a run. */
  lemma CountsInRun(run: seq<State>, acts: seq<Act>, i: nat, k: nat, t: nat, c: nat, bound: nat)
    requires IsRun(run, acts) && QuietFrom(acts, i) && i <= k < |acts| && |run| == |acts| + 1
    requires Counting(run[k], t, c, bound) && c < bound <= MAX_BACKOFF
    ensures Counting(run[k + 1], t, if c + 1 < bound then c + 1 else 0,
                     if c + 1 < bound || bound == MAX_BACKOFF then bound else bound * 2)
  {
    hide Counting, Alone, IsRun;
    QuietAct(run, acts, i, k);
    CountingOn(run[k], run[k + 1], t, c, bound);
  }

  lemma {:induction false} CountsUp(run: seq<State>, acts: seq<Act>, i: nat, k: nat, t: nat, bound: nat, n: nat)
    requires IsRun(run, acts) && QuietFrom(acts, i) && i <= k && k + n <= |acts| && |run| == |acts| + 1
    requires Counting(run[k], t, 0, bound) && n < bound <= MAX_BACKOFF
    ensures Counting(run[k + n], t, n, bound)
  {
    hide *;
    if n > 0 {
      CountsUp(run, acts, i, k, t, bound, n - 1);
      CountsInRun(run, acts, i, k + (n - 1), t, n - 1, bound);
      assert k + (n - 1) + 1 == k + n;
    }
  }

  function Power(j: nat): (p: nat)
    ensures p >= 1
  {
    if j == 0 then 1 else 2 * Power(j - 1)
  }

  /** While the queue stays empty its bounds go up to 1024 by doubling: a set that starts to count at bound 2^j
      does so again at bound 2^m after 2^m - 2^j calls. */
  lemma {:induction false} EmptyBacksOff(run: seq<State>, acts: seq<Act>, i: nat, t: nat, j: nat, m: nat, k: nat)
    requires IsRun(run, acts) && QuietFrom(acts, i) && i <= k <= |acts| && |run| == |acts| + 1
    requires Counting(run[i], t, 0, Power(j))
    requires j <= m && Power(m) <= MAX_BACKOFF && k + Power(j) == i + Power(m)
    ensures Counting(run[k], t, 0, Power(m))
    decreases m
  {
    hide IsRun, QuietFrom, Counting;
    if j < m {
      var half := Power(m - 1);
      Increases(j, m - 1);
      EmptyBacksOff(run, acts, i, t, j, m - 1, k - half);
      CountsUp(run, acts, i, k - half, t, half, half - 1);
      CountsInRun(run, acts, i, k - half + (half - 1), t, half - 1, half);
      assert k - half + (half - 1) + 1 == k;
    }
  }

  /** A new queue that stays empty has doubled all its bounds m times after 2^m - 1 calls. */
  lemma NewBacksOff(run: seq<State>, acts: seq<Act>, t: nat, m: nat)
    requires IsRun(run, acts) && QuietFrom(acts, 0) && New(run[0]) && t < Sets(run[0])
    requires Power(m) <= MAX_BACKOFF && Power(m) - 1 <= |acts|
    ensures var s := run[Power(m) - 1]; Shaped(s) && t < Sets(s) && s.counters[t] == 0 && s.bounds[t] == Power(m)
  {
    assert Counting(run[0], t, 0, Power(0));
    hide IsRun, QuietFrom, New, Rests;
    assert |run| == |acts| + 1 by { NewRun(run, acts); }
    EmptyBacksOff(run, acts, 0, t, 0, m, Power(m) - 1);
  }

  lemma NewRun(run: seq<State>, acts: seq<Act>)
    requires IsRun(run, acts)
    ensures |run| == |acts| + 1
  {
  }

  lemma {:induction false} Increases(j: nat, m: nat)
    requires j <= m
    ensures Power(j) <= Power(m)
  {
    if j < m { Increases(j, m - 1); }
  }

  /** From then on a set looks at its buckets with every 1024th call. */
  lemma {:induction false} LooksEvery1024(run: seq<State>, acts: seq<Act>, i: nat, k: nat, t: nat, n: nat)
    requires IsRun(run, acts) && QuietFrom(acts, i) && i <= k && k + n <= |acts| && |run| == |acts| + 1
    requires Counting(run[k], t, 0, MAX_BACKOFF)
    ensures Counting(run[k + n], t, n % MAX_BACKOFF, MAX_BACKOFF)
    decreases n
  {
    hide IsRun, QuietFrom, Counting;
    if n < MAX_BACKOFF {
      CountsUp(run, acts, i, k, t, MAX_BACKOFF, n);
    } else {
      var last := k + (MAX_BACKOFF - 1);
      CountsUp(run, acts, i, k, t, MAX_BACKOFF, MAX_BACKOFF - 1);
      CountsInRun(run, acts, i, last, t, MAX_BACKOFF - 1, MAX_BACKOFF);
      LooksEvery1024(run, acts, i, last + 1, t, n - MAX_BACKOFF);
      assert last + 1 + (n - MAX_BACKOFF) == k + n;
    }
  }
}
