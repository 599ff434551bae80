/**
 * Deterministic topological sorting of plan steps (agent/plan_validator.py, Kahn's algorithm).
 * A step is named by its declaration index; `g[i]` are the indices that step i depends on, with repeats.
 */
module Topology {

  type Graph = seq<seq<nat>>

  predicate Closed(g: Graph) {
    forall i :: 0 <= i < |g| ==> forall d <- g[i] :: d < |g|
  }

  /** Step i may run next: it has not run, and everything it depends on has. */
  predicate Available(g: Graph, done: seq<nat>, i: nat) {
    i < |g| && i !in done && forall d <- g[i] :: d in done
  }

  predicate LeastAvailable(g: Graph, done: seq<nat>, i: nat) {
    Available(g, done, i) && forall j: nat :: j < i ==> !Available(g, done, j)
  }

  /** Each member is the least step available after the members before it. */
  predicate Greedy(g: Graph, order: seq<nat>) {
    forall k :: 0 <= k < |order| ==> LeastAvailable(g, order[..k], order[k])
  }

  /** Nothing more can run. */
  ghost predicate Stuck(g: Graph, order: seq<nat>) {
    forall i: nat :: !Available(g, order, i)
  }

  /** Every step once, every dependency before its dependents. */
  predicate TopologicalOrder(g: Graph, order: seq<nat>) {
    && |order| == |g|
    && forall k :: 0 <= k < |order| ==> Available(g, order[..k], order[k])
  }

  /** `a` comes before `b` in the dictionary order of declaration indices. */
  predicate LexBefore(a: seq<nat>, b: seq<nat>) {
    exists k :: 0 <= k < |a| && k < |b| && a[..k] == b[..k] && a[k] < b[k]
  }

  // ------------------------------------------------------------------------
  // Counting: no list of distinct steps is longer than the plan
  // ------------------------------------------------------------------------

  predicate Distinct(s: seq<nat>) {
    forall i, j :: 0 <= i < j < |s| ==> s[i] != s[j]
  }

  function Members(s: seq<nat>): set<nat> {
    set x | x in s
  }

  function Below(n: nat): set<nat> {
    if n == 0 then {} else Below(n - 1) + {n - 1}
  }

  lemma {:induction false} BelowMeaning(n: nat)
    ensures |Below(n)| == n
    ensures forall x: nat :: x in Below(n) <==> x < n
  {
    if n > 0 {
      BelowMeaning(n - 1);
    }
  }

  lemma {:induction false} MembersSize(s: seq<nat>)
    requires Distinct(s)
    ensures |Members(s)| == |s|
  {
    if s != [] {
      var front, last := s[..|s| - 1], s[|s| - 1];
      MembersSize(front);
      assert s == front + [last];
      assert Members(s) == Members(front) + {last};
    }
  }

  lemma SubsetSize(a: set<nat>, b: set<nat>)
    requires a <= b
    ensures |a| <= |b|
    ensures |a| == |b| ==> a == b
  {
    assert b == a + (b - a);
  }

  lemma DistinctBound(s: seq<nat>, n: nat)
    requires Distinct(s) && forall x <- s :: x < n
    ensures |s| <= n
    ensures |s| == n ==> forall x: nat :: x < n ==> x in s
  {
    MembersSize(s);
    BelowMeaning(n);
    SubsetSize(Members(s), Below(n));
    forall x: nat | |s| == n && x < n
      ensures x in s
    {
      assert x in Members(s);
    }
  }

  /** Orders in which each member was available are distinct steps of the plan. */
  lemma OrderedDistinct(g: Graph, order: seq<nat>)
    requires forall k :: 0 <= k < |order| ==> Available(g, order[..k], order[k])
    ensures Distinct(order) && (forall x <- order :: x < |g|) && |order| <= |g|
    ensures |order| == |g| ==> forall x: nat :: x < |g| ==> x in order
  {
    forall i, j | 0 <= i < j < |order|
      ensures order[i] != order[j]
    {
      assert order[..j][i] == order[i];
    }
    DistinctBound(order, |g|);
  }

  // ------------------------------------------------------------------------
  // The simple form
  // ------------------------------------------------------------------------

  function FirstAvailable(g: Graph, done: seq<nat>, from: nat): (r: nat)
    requires from <= |g|
    ensures from <= r <= |g|
    ensures r < |g| ==> Available(g, done, r)
    ensures forall j: nat :: from <= j < r ==> !Available(g, done, j)
    decreases |g| - from
  {
    if from == |g| || Available(g, done, from) then from else FirstAvailable(g, done, from + 1)
  }

  function Extend(g: Graph, done: seq<nat>, left: nat): seq<nat>
    decreases left
  {
    if left == 0 then done
    else
      var i := FirstAvailable(g, done, 0);
      if i == |g| then done else Extend(g, done + [i], left - 1)
  }

  /** Run the least available step until none is. */
  function Order(g: Graph): seq<nat> {
    Extend(g, [], |g|)
  }

  lemma GreedyAppend(g: Graph, order: seq<nat>, i: nat)
    requires Greedy(g, order) && LeastAvailable(g, order, i)
    ensures Greedy(g, order + [i])
  {
    var longer := order + [i];
    forall k | 0 <= k < |longer|
      ensures LeastAvailable(g, longer[..k], longer[k])
    {
      assert longer[..k] == order[..k];
      if k == |order| {
        assert order[..k] == order;
      }
    }
  }

  lemma {:induction false} ExtendGreedy(g: Graph, done: seq<nat>, left: nat)
    requires Greedy(g, done) && |done| + left == |g|
    ensures Greedy(g, Extend(g, done, left)) && Stuck(g, Extend(g, done, left))
    decreases left
  {
    OrderedDistinct(g, done);
    if left > 0 {
      var i := FirstAvailable(g, done, 0);
      if i < |g| {
        GreedyAppend(g, done, i);
        ExtendGreedy(g, done + [i], left - 1);
      }
    }
  }

  lemma OrderGreedy(g: Graph)
    ensures Greedy(g, Order(g)) && Stuck(g, Order(g))
  {
    ExtendGreedy(g, [], |g|);
  }

  /** There is only one greedy order that runs until it is stuck. */
  lemma {:induction false} GreedyAgree(g: Graph, a: seq<nat>, b: seq<nat>, k: nat)
    requires Greedy(g, a) && Stuck(g, a) && Greedy(g, b)
    requires k <= |b|
    ensures k <= |a| && a[..k] == b[..k]
    decreases k
  {
    if k > 0 {
      GreedyAgree(g, a, b, k - 1);
      assert LeastAvailable(g, b[..k - 1], b[k - 1]);
      assert !Available(g, a, b[k - 1]);
      assert a[..|a|] == a;
      assert LeastAvailable(g, a[..k - 1], a[k - 1]);
      assert a[..k] == a[..k - 1] + [a[k - 1]] && b[..k] == b[..k - 1] + [b[k - 1]];
    }
  }

  lemma GreedyUnique(g: Graph, a: seq<nat>, b: seq<nat>)
    requires Greedy(g, a) && Stuck(g, a) && Greedy(g, b) && Stuck(g, b)
    ensures a == b
  {
    GreedyAgree(g, a, b, |b|);
    GreedyAgree(g, b, a, |a|);
  }

  // ------------------------------------------------------------------------
  // What the order means
  // ------------------------------------------------------------------------

  lemma CompleteIsTopological(g: Graph)
    requires |Order(g)| == |g|
    ensures TopologicalOrder(g, Order(g))
  {
    OrderGreedy(g);
  }

  lemma {:induction false} EmittedAll(g: Graph, order: seq<nat>, other: seq<nat>, n: nat)
    requires Stuck(g, order) && n <= |other|
    requires forall k :: 0 <= k < |other| ==> Available(g, other[..k], other[k])
    ensures forall j :: 0 <= j < n ==> other[j] in order
    decreases n
  {
    if n > 0 {
      EmittedAll(g, order, other, n - 1);
      var i := other[n - 1];
      assert Available(g, other[..n - 1], i);
      forall d <- g[i]
        ensures d in order
      {
        var j :| 0 <= j < n - 1 && other[..n - 1][j] == d;
      }
      assert !Available(g, order, i);
    }
  }

  /** If any topological order exists, the sort finds one. */
  lemma OrderComplete(g: Graph, other: seq<nat>)
    requires TopologicalOrder(g, other)
    ensures TopologicalOrder(g, Order(g))
  {
    OrderGreedy(g);
    OrderedDistinct(g, Order(g));
    OrderedDistinct(g, other);
    EmittedAll(g, Order(g), other, |other|);
    MembersSize(Order(g));
    MembersSize(other);
    SubsetSize(Members(other), Members(Order(g)));
  }

  /** The order is the first of all topological orders in dictionary order. */
  lemma OrderIsLexLeast(g: Graph, other: seq<nat>)
    requires TopologicalOrder(g, other)
    ensures TopologicalOrder(g, Order(g))
    ensures other == Order(g) || LexBefore(Order(g), other)
  {
    OrderGreedy(g);
    OrderComplete(g, other);
    var order := Order(g);
    var k := FirstDifference(order, other, |other|);
    if k < |other| {
      assert other[..k] == order[..k];
      assert Available(g, order[..k], other[k]);
      assert LeastAvailable(g, order[..k], order[k]);
    } else {
      assert other == other[..k] == order[..k] == order;
    }
  }

  /** The first place among the first n at which two lists part, or n. */
  lemma {:induction false} FirstDifference(a: seq<nat>, b: seq<nat>, n: nat) returns (k: nat)
    requires n <= |b|
    ensures k <= n && k <= |a| && a[..k] == b[..k]
    ensures k < n ==> k == |a| || a[k] != b[k]
  {
    k := 0;
    if n > 0 {
      k := FirstDifference(a, b, n - 1);
      if k == n - 1 && k < |a| && a[k] == b[k] {
        assert a[..n] == a[..k] + [a[k]] && b[..n] == b[..k] + [b[k]];
        k := n;
      }
    }
  }

  /** Steps declared after everything they depend on are left in declaration order. */
  lemma SortedStaysPut(g: Graph)
    requires forall i :: 0 <= i < |g| ==> forall d <- g[i] :: d < i
    ensures Order(g) == seq(|g|, i => i)
  {
    var id: seq<nat> := seq(|g|, i => i);
    forall k | 0 <= k < |id|
      ensures LeastAvailable(g, id[..k], id[k])
    {
      forall x: nat
        ensures x in id[..k] <==> x < k
      {
        assert x < k ==> id[..k][x] == x;
      }
    }
    forall i: nat
      ensures !Available(g, id, i)
    {
      assert i < |g| ==> id[i] == i;
    }
    OrderGreedy(g);
    GreedyUnique(g, Order(g), id);
  }
}
