/**
 The arithmetic of the HMCS tree: `p[i]` threads share each node of level i, and the nodes of all levels
 lie one level after the other in a single table.
 */
module HmcsShape {
  import opened Arith
  import Hmcs

  /** Each level's group size divides the next, and the last group is everybody. */
  predicate Chain(p: seq<nat>, max: nat) {
    && |p| >= 1 && (forall i :: 0 <= i < |p| ==> p[i] >= 1)
    && (forall i :: 0 <= i < |p| - 1 ==> p[i + 1] % p[i] == 0)
    && p[|p| - 1] == max
  }

  /** The number of nodes of level `l`. */
  function Width(p: seq<nat>, max: nat, l: nat): nat
    requires Chain(p, max) && l < |p|
  {
    max / p[l]
  }

  /** Where the nodes of level `l` start in the table. */
  function Offset(p: seq<nat>, max: nat, l: nat): nat
    requires Chain(p, max) && l <= |p|
  {
    if l == 0 then 0 else Offset(p, max, l - 1) + Width(p, max, l - 1)
  }

  function Total(p: seq<nat>, max: nat): nat
    requires Chain(p, max)
  {
    Offset(p, max, |p|)
  }

  /** The place of the `j`-th node of level `l`. */
  function Slot(p: seq<nat>, max: nat, l: nat, j: nat): nat
    requires Chain(p, max) && l < |p|
  {
    Offset(p, max, l) + j
  }

  /** The first thread of the `j`-th group of level `l`. */
  function Master(p: seq<nat>, l: nat, j: nat): nat
    requires l < |p|
  {
    j * p[l]
  }

  /** The group of level `l` that thread `t` belongs to. */
  function Group(p: seq<nat>, l: nat, t: nat): nat
    requires l < |p| && p[l] >= 1
  {
    t / p[l]
  }

  // ---------------------------------------------------------------- division

  lemma DivideExact(a: nat, b: nat) returns (k: nat)
    requires b >= 1 && a % b == 0
    ensures a == k * b && k == a / b
  {
    k := a / b;
  }

  lemma MultipleMod(k: nat, b: nat)
    requires b >= 1
    ensures (k * b) % b == 0 && (k * b) / b == k
  {
    assert k * b == b * k + 0;
    DivUnique(k * b, b, k, 0);
  }

  lemma ModTransitive(a: nat, b: nat, c: nat)
    requires b >= 1 && c >= 1 && a % b == 0 && b % c == 0
    ensures a % c == 0
  {
    var k := DivideExact(a, b);
    var m := DivideExact(b, c);
    assert a == (k * m) * c;
    MultipleMod(k * m, c);
  }

  lemma Split(x: nat, b: nat, c: nat, m: nat, q: nat, r: nat, s: nat)
    requires b >= 1 && c == m * b && x == c * q + r && r < c && s == r / b
    ensures x == (m * q + s) * b + r % b && (m * q + s) * b == q * c + s * b && 0 <= s * b < c
  {
    assert r == b * s + r % b;
    assert c * q == (m * q) * b;
    assert (m * q + s) * b == (m * q) * b + s * b;
  }

  /** Rounding down to a multiple of b first does not change the quotient by a multiple of b. */
  lemma RoundThenDivide(x: nat, b: nat, c: nat)
    requires b >= 1 && c >= 1 && c % b == 0
    ensures ((x / b) * b) / c == x / c
  {
    var m := DivideExact(c, b);
    var q, r := x / c, x % c;
    var s := r / b;
    Split(x, b, c, m, q, r, s);
    DivUnique(x, b, m * q + s, r % b);
    DivUnique((x / b) * b, c, q, s * b);
  }

  // ---------------------------------------------------------------- levels and slots

  lemma {:induction false} LevelsDivide(p: seq<nat>, max: nat, i: nat, j: nat)
    requires Chain(p, max) && i <= j < |p|
    ensures p[j] % p[i] == 0
  {
    if i < j {
      LevelsDivide(p, max, i, j - 1);
      assert p[j - 1 + 1] % p[j - 1] == 0;
      ModTransitive(p[j], p[j - 1], p[i]);
    }
  }

  /** The first thread of a group of some level is the first of its group at every level below. */
  lemma MasterBelow(p: seq<nat>, max: nat, i: nat, j: nat, t: nat)
    requires Chain(p, max) && i <= j < |p| && t % p[j] == 0
    ensures t % p[i] == 0
  {
    LevelsDivide(p, max, i, j);
    ModTransitive(t, p[j], p[i]);
  }

  /** Groups and their first threads correspond. */
  lemma GroupBounds(p: seq<nat>, max: nat, l: nat, t: nat)
    requires Chain(p, max) && l < |p| && t < max
    ensures Group(p, l, t) < Width(p, max, l)
    ensures Master(p, l, Group(p, l, t)) <= t
    ensures t % p[l] == 0 <==> Master(p, l, Group(p, l, t)) == t
  {
    LevelsDivide(p, max, l, |p| - 1);
    var w := DivideExact(max, p[l]);
    var q, r := t / p[l], t % p[l];
    assert t == p[l] * q + r;
    Multiples(q + 1 - w, p[l]);
  }

  lemma MasterOfGroup(p: seq<nat>, max: nat, l: nat, j: nat)
    requires Chain(p, max) && l < |p| && j < Width(p, max, l)
    ensures Master(p, l, j) < max && Group(p, l, Master(p, l, j)) == j && Master(p, l, j) % p[l] == 0
  {
    LevelsDivide(p, max, l, |p| - 1);
    var w := DivideExact(max, p[l]);
    MultipleMod(j, p[l]);
    assert (j + 1) * p[l] <= w * p[l];
    assert (j + 1) * p[l] == j * p[l] + p[l];
  }

  /** The first thread of one's group at a level is in one's group at the level above. */
  lemma ParentGroup(p: seq<nat>, max: nat, l: nat, t: nat)
    requires Chain(p, max) && l + 1 < |p|
    ensures Group(p, l + 1, Master(p, l, Group(p, l, t))) == Group(p, l + 1, t)
  {
    RoundThenDivide(t, p[l], p[l + 1]);
  }

  lemma {:induction false} OffsetsGrow(p: seq<nat>, max: nat, l: nat, m: nat)
    requires Chain(p, max) && l < m <= |p|
    ensures Offset(p, max, l) + Width(p, max, l) <= Offset(p, max, m)
  {
    if l + 1 < m { OffsetsGrow(p, max, l, m - 1); }
  }

  /** Each node has a place in the table, and no two share one. */
  lemma SlotsDiffer(p: seq<nat>, max: nat, l: nat, j: nat, m: nat, k: nat)
    requires Chain(p, max) && l < |p| && m < |p| && j < Width(p, max, l) && k < Width(p, max, m)
    ensures Slot(p, max, l, j) < Total(p, max)
    ensures Slot(p, max, l, j) == Slot(p, max, m, k) <==> l == m && j == k
  {
    OffsetsGrow(p, max, l, |p|);
    if l < m { OffsetsGrow(p, max, l, m); } else if m < l { OffsetsGrow(p, max, m, l); }
  }

  /** Each place in the table is some node's. */
  lemma {:induction false} SlotOf(p: seq<nat>, max: nat, m: nat, s: nat) returns (l: nat, j: nat)
    requires Chain(p, max) && m <= |p| && s < Offset(p, max, m)
    ensures l < m && j < Width(p, max, l) && Slot(p, max, l, j) == s
  {
    if s >= Offset(p, max, m - 1) {
      l, j := m - 1, s - Offset(p, max, m - 1);
    } else {
      l, j := SlotOf(p, max, m - 1, s);
    }
  }

  /** The root is alone on its level and comes last. */
  lemma RootSlot(p: seq<nat>, max: nat)
    requires Chain(p, max)
    ensures Width(p, max, |p| - 1) == 1 && Slot(p, max, |p| - 1, 0) == Total(p, max) - 1
  {
    MultipleMod(1, max);
  }

  // ---------------------------------------------------------------- how many nodes there are

  /** The nodes from level `l` up. */
  function Above(p: seq<nat>, max: nat, l: nat): nat
    requires Chain(p, max) && l <= |p|
    decreases |p| - l
  {
    if l == |p| then 0 else Width(p, max, l) + Above(p, max, l + 1)
  }

  lemma {:induction false} AboveIsRest(p: seq<nat>, max: nat, l: nat)
    requires Chain(p, max) && l <= |p|
    ensures Offset(p, max, l) + Above(p, max, l) == Total(p, max)
    decreases |p| - l
  {
    if l < |p| { AboveIsRest(p, max, l + 1); }
  }

  predicate Strict(p: seq<nat>) { forall i :: 0 <= i < |p| - 1 ==> p[i] < p[i + 1] }

  lemma WidthHalves(p: seq<nat>, max: nat, l: nat)
    requires Chain(p, max) && Strict(p) && l + 1 < |p|
    ensures 2 * Width(p, max, l + 1) <= Width(p, max, l)
  {
    LevelsDivide(p, max, l + 1, |p| - 1);
    var w := DivideExact(max, p[l + 1]);
    var m := DivideExact(p[l + 1], p[l]);
    assert p[l] < p[l + 1];
    Halves(max, p[l + 1], p[l], w, m);
  }

  lemma Halves(a: nat, b: nat, c: nat, w: nat, m: nat)
    requires c >= 1 && c < b && a == w * b && b == m * c
    ensures 2 * w <= a / c
  {
    Multiples(1 - m, c);
    assert (w * m) * c == w * (m * c);
    MultipleMod(w * m, c);
    assert w * m - w * 2 == w * (m - 2);
  }

  lemma {:induction false} AboveBound(p: seq<nat>, max: nat, l: nat)
    requires Chain(p, max) && Strict(p) && l < |p|
    ensures Above(p, max, l) <= 2 * Width(p, max, l) - 1
    decreases |p| - l
  {
    if l + 1 < |p| {
      AboveBound(p, max, l + 1);
      WidthHalves(p, max, l);
    } else {
      RootSlot(p, max);
      assert Above(p, max, l + 1) == 0;
    }
  }

  /** With strictly growing groups there are fewer nodes than twice the threads. */
  lemma StrictChainIsSmall(p: seq<nat>, max: nat)
    requires Chain(p, max) && Strict(p)
    ensures Total(p, max) < 2 * max
  {
    AboveIsRest(p, max, 0);
    AboveBound(p, max, 0);
    DivMonotoneDivisor(max, p[0]);
  }

  lemma DivMonotoneDivisor(a: nat, b: nat)
    requires b >= 1
    ensures a / b <= a
  {
    assert a == b * (a / b) + a % b;
    Multiples(b, a / b);
  }

  /** Without, there may be too many: two threads and three levels need four nodes. */
  lemma RepeatedLevelIsTooMany()
    ensures Chain([1, 2, 2], 2) && Total([1, 2, 2], 2) == 4
  {
    var p: seq<nat> := [1, 2, 2];
    assert Offset(p, 2, 1) == 2 && Offset(p, 2, 2) == 3 && Offset(p, 2, 3) == 4;
  }

  // ---------------------------------------------------------------- the shape the lock protocol relies on

  /** The tree that the construction builds, as the lock protocol sees it. */
  function TreeOf(p: seq<nat>, max: nat, threshold: nat): Hmcs.Tree
    requires Chain(p, max)
  {
    Hmcs.Tree(|p|, threshold, (t: nat) => Group(p, 0, t % max),
              (h: Hmcs.HNode) => if h.level + 1 < |p| then Group(p, h.level + 1, Master(p, h.level, h.index)) else 0)
  }

  /** Thread t's level-i node is the one of its group of level i. */
  lemma {:induction false} AncestorIsGroup(p: seq<nat>, max: nat, threshold: nat, t: nat, i: nat)
    requires Chain(p, max) && i < |p|
    ensures Hmcs.Anc(TreeOf(p, max, threshold), t, i) == Hmcs.HNode(i, Group(p, i, t % max))
  {
    if i > 0 {
      AncestorIsGroup(p, max, threshold, t, i - 1);
      ParentGroup(p, max, i - 1, t % max);
    }
  }

  /** Two threads share a level-i node exactly if tid / p[i] agrees. */
  lemma SharedNodes(p: seq<nat>, max: nat, threshold: nat, t: nat, u: nat, i: nat)
    requires Chain(p, max) && i < |p| && t < max && u < max
    ensures Hmcs.Anc(TreeOf(p, max, threshold), t, i) == Hmcs.Anc(TreeOf(p, max, threshold), u, i) <==>
            t / p[i] == u / p[i]
  {
    AncestorIsGroup(p, max, threshold, t, i);
    AncestorIsGroup(p, max, threshold, u, i);
    DivUnique(t, max, 0, t);
    DivUnique(u, max, 0, u);
  }

  /** Every leaf reaches the one root in exactly `levels` nodes: the tree is one the lock protocol is
      correct for. */
  lemma ShapeIsValid(p: seq<nat>, max: nat, threshold: nat)
    requires Chain(p, max) && 1 <= threshold < Hmcs.ACQUIRE_PARENT
    ensures Hmcs.ValidTree(TreeOf(p, max, threshold))
  {
    var c := TreeOf(p, max, threshold);
    forall t: nat, i: nat | i + 1 == c.levels ensures Hmcs.Anc(c, t, i) == Hmcs.Root(c) {
      AncestorIsGroup(p, max, threshold, t, i);
      DivUnique(t % max, max, 0, t % max);
    }
  }
}
