/** Kahn's algorithm as the loop of agent/plan_validator.py, with in-degrees and a sorted list of ready steps. */
module KahnLoop {
  import opened Topology
  import opened TopologyCycles

  /** How many entries of `ds` are not done yet, repeats counted. */
  function Remaining(ds: seq<nat>, done: set<nat>): nat {
    if ds == [] then 0
    else Remaining(ds[..|ds| - 1], done) + if ds[|ds| - 1] in done then 0 else 1
  }

  lemma {:induction false} RemainingStep(ds: seq<nat>, done: set<nat>, c: nat)
    requires c !in done
    ensures Remaining(ds, done) == Remaining(ds, done + {c}) + multiset(ds)[c]
  {
    if ds != [] {
      RemainingStep(ds[..|ds| - 1], done, c);
      assert ds == ds[..|ds| - 1] + [ds[|ds| - 1]];
    }
  }

  lemma {:induction false} RemainingZero(ds: seq<nat>, done: set<nat>)
    ensures Remaining(ds, done) == 0 <==> forall d <- ds :: d in done
  {
    if ds != [] {
      RemainingZero(ds[..|ds| - 1], done);
      assert ds == ds[..|ds| - 1] + [ds[|ds| - 1]];
    }
  }

  lemma {:induction false} RemainingNone(ds: seq<nat>)
    ensures Remaining(ds, {}) == |ds|
  {
    if ds != [] {
      RemainingNone(ds[..|ds| - 1]);
    }
  }

  predicate Ascending(s: seq<nat>) {
    forall i, j :: 0 <= i < j < |s| ==> s[i] <= s[j]
  }

  function InsertSorted(x: nat, s: seq<nat>): seq<nat> {
    if s == [] || x <= s[0] then [x] + s else [s[0]] + InsertSorted(x, s[1..])
  }

  lemma AscendingCons(x: nat, s: seq<nat>)
    requires Ascending(s) && forall y <- s :: x <= y
    ensures Ascending([x] + s)
  {
    var r := [x] + s;
    forall i, j | 0 <= i < j < |r|
      ensures r[i] <= r[j]
    {
      assert r[j] == s[j - 1] && s[j - 1] in s;
    }
  }

  lemma {:induction false} InsertMembers(x: nat, s: seq<nat>)
    ensures multiset(InsertSorted(x, s)) == multiset(s) + multiset{x}
  {
    if s != [] && x > s[0] {
      InsertMembers(x, s[1..]);
      assert s == [s[0]] + s[1..];
    }
  }

  lemma {:induction false} InsertMeaning(x: nat, s: seq<nat>)
    requires Ascending(s)
    ensures Ascending(InsertSorted(x, s))
  {
    if s == [] {
    } else if x <= s[0] {
      AscendingCons(x, s);
    } else {
      var tail := s[1..];
      var rest := InsertSorted(x, tail);
      InsertMeaning(x, tail);
      InsertMembers(x, tail);
      forall y <- rest
        ensures s[0] <= y
      {
        assert y in multiset(rest);
        assert y == x || y in tail;
      }
      AscendingCons(s[0], rest);
    }
  }

  /** `list.sort()` on declaration indices. */
  function Sort(s: seq<nat>): seq<nat> {
    if s == [] then [] else InsertSorted(s[0], Sort(s[1..]))
  }

  lemma {:induction false} SortMeaning(s: seq<nat>)
    ensures Ascending(Sort(s)) && multiset(Sort(s)) == multiset(s)
  {
    if s != [] {
      SortMeaning(s[1..]);
      InsertMeaning(s[0], Sort(s[1..]));
      InsertMembers(s[0], Sort(s[1..]));
      assert s == [s[0]] + s[1..];
    }
  }

  /** One entry of step i for each occurrence of d among `ds`. */
  function Uses(ds: seq<nat>, d: nat, i: nat): seq<nat> {
    if ds == [] then []
    else Uses(ds[..|ds| - 1], d, i) + if ds[|ds| - 1] == d then [i] else []
  }

  /** The dependents of d among the first n steps, one entry per repeat. */
  function Dependents(g: Graph, d: nat, n: nat): seq<nat>
    requires n <= |g|
  {
    if n == 0 then [] else Dependents(g, d, n - 1) + Uses(g[n - 1], d, n - 1)
  }

  lemma {:induction false} UsesCount(ds: seq<nat>, d: nat, i: nat, x: nat)
    ensures multiset(Uses(ds, d, i))[x] == if x == i then multiset(ds)[d] else 0
  {
    if ds != [] {
      UsesCount(ds[..|ds| - 1], d, i, x);
      assert ds == ds[..|ds| - 1] + [ds[|ds| - 1]];
    }
  }

  lemma {:induction false} DependentsCount(g: Graph, d: nat, n: nat, x: nat)
    requires n <= |g|
    ensures multiset(Dependents(g, d, n))[x] == if x < n then multiset(g[x])[d] else 0
  {
    if n > 0 {
      DependentsCount(g, d, n - 1, x);
      UsesCount(g[n - 1], d, n - 1, x);
    }
  }

  /** One more entry of a step's dependencies is one more use of that entry. */
  lemma UsesStep(ds: seq<nat>, j: nat, i: nat)
    requires j < |ds|
    ensures forall d: nat :: Uses(ds[..j + 1], d, i) == Uses(ds[..j], d, i) + if ds[j] == d then [i] else []
  {
    assert ds[..j + 1][..j] == ds[..j];
  }

  /** In-degrees with repeats counted, and for each step its dependents. */
  method BuildEdges(g: Graph) returns (inDegree: seq<nat>, dependents: seq<seq<nat>>)
    requires Closed(g)
    ensures |inDegree| == |dependents| == |g|
    ensures forall i :: 0 <= i < |g| ==> inDegree[i] == |g[i]|
    ensures forall d :: 0 <= d < |g| ==> dependents[d] == Dependents(g, d, |g|)
  {
    inDegree := seq(|g|, _ => 0);
    dependents := seq(|g|, _ => []);
    for i := 0 to |g|
      invariant |inDegree| == |dependents| == |g|
      invariant forall x :: 0 <= x < |g| ==> inDegree[x] == if x < i then |g[x]| else 0
      invariant forall d :: 0 <= d < |g| ==> dependents[d] == Dependents(g, d, i)
    {
      for j := 0 to |g[i]|
        invariant |inDegree| == |dependents| == |g|
        invariant forall x :: 0 <= x < |g| ==> inDegree[x] == if x < i then |g[x]| else if x == i then j else 0
        invariant forall d :: 0 <= d < |g| ==> dependents[d] == Dependents(g, d, i) + Uses(g[i][..j], d, i)
      {
        hide Uses, Dependents;
        var d := g[i][j];
        assert d in g[i];
        UsesStep(g[i], j, i);
        dependents := dependents[d := dependents[d] + [i]];
        inDegree := inDegree[i := inDegree[i] + 1];
      }
      assert g[i][..|g[i]|] == g[i];
    }
  }

  /** The ready queue holds each step that is available, once. */
  ghost predicate ReadyExactly(g: Graph, order: seq<nat>, inDegree: seq<nat>, ready: seq<nat>)
    requires |inDegree| == |g|
  {
    && (forall i :: multiset(ready)[i] <= 1)
    && (forall i: nat :: i in ready <==> i < |g| && i !in order && inDegree[i] == 0)
  }

  ghost predicate DegreesExactly(g: Graph, order: seq<nat>, inDegree: seq<nat>)
  {
    |inDegree| == |g| && forall i :: 0 <= i < |g| ==> inDegree[i] == Remaining(g[i], Members(order))
  }

  lemma ReadyIsAvailable(g: Graph, order: seq<nat>, inDegree: seq<nat>, ready: seq<nat>)
    requires DegreesExactly(g, order, inDegree) && ReadyExactly(g, order, inDegree, ready)
    ensures forall i: nat :: i in ready <==> Available(g, order, i)
  {
    forall i: nat
      ensures i in ready <==> Available(g, order, i)
    {
      if i < |g| {
        RemainingZero(g[i], Members(order));
      }
    }
  }

  lemma ReleaseOne(g: Graph, order: seq<nat>, inDegree: seq<nat>, ready: seq<nat>, n: nat)
    requires |inDegree| == |g| && ReadyExactly(g, order, inDegree, ready)
    requires n < |g| && n !in order && inDegree[n] >= 1
    ensures ReadyExactly(g, order, inDegree[n := inDegree[n] - 1], if inDegree[n] == 1 then ready + [n] else ready)
  {
    assert n !in ready;
  }

  lemma NeighborsWait(g: Graph, order: seq<nat>, current: nat, neighbors: seq<nat>, inDegree: seq<nat>)
    requires current < |g| && current !in order && DegreesExactly(g, order, inDegree)
    requires neighbors == Dependents(g, current, |g|)
    requires inDegree[current] == 0 && forall x <- order :: x < |g| && inDegree[x] == 0
    ensures forall i :: 0 <= i < |g| ==>
              inDegree[i] == Remaining(g[i], Members(order + [current])) + multiset(neighbors)[i]
    ensures forall n <- neighbors :: n < |g| && n !in order + [current]
  {
    assert Members(order + [current]) == Members(order) + {current};
    forall i | 0 <= i < |g|
      ensures inDegree[i] == Remaining(g[i], Members(order + [current])) + multiset(neighbors)[i]
    {
      RemainingStep(g[i], Members(order), current);
      DependentsCount(g, current, |g|, i);
    }
    forall n <- neighbors
      ensures n < |g| && n !in order + [current]
    {
      assert multiset(neighbors)[n] >= 1;
      DependentsCount(g, current, |g|, n);
    }
  }

  /** The first j neighbours have lost one in-degree each, repeats counted. */
  ghost predicate Lowered(before: seq<nat>, neighbors: seq<nat>, j: nat, after: seq<nat>)
    requires j <= |neighbors|
  {
    && |after| == |before|
    && forall i :: 0 <= i < |before| ==> after[i] + multiset(neighbors[..j])[i] == before[i]
  }

  lemma LoweredStep(before: seq<nat>, neighbors: seq<nat>, j: nat, after: seq<nat>)
    requires j < |neighbors| && Lowered(before, neighbors, j, after)
    requires forall n <- neighbors :: n < |before| && before[n] >= multiset(neighbors)[n]
    ensures neighbors[j] < |before| && after[neighbors[j]] >= 1
    ensures Lowered(before, neighbors, j + 1, after[neighbors[j] := after[neighbors[j]] - 1])
  {
    var n := neighbors[j];
    assert n in neighbors;
    assert neighbors[..j + 1] == neighbors[..j] + [n];
    assert neighbors == neighbors[..j + 1] + neighbors[j + 1..];
  }

  /** The neighbours of the step just emitted lose one in-degree per edge; those that reach 0 become ready. */
  method Release(g: Graph, order: seq<nat>, current: nat, neighbors: seq<nat>,
                 inDegree0: seq<nat>, ready0: seq<nat>)
    returns (inDegree: seq<nat>, ready: seq<nat>)
    requires current < |g| && current !in order && DegreesExactly(g, order, inDegree0)
    requires ReadyExactly(g, order + [current], inDegree0, ready0)
    requires inDegree0[current] == 0 && forall x <- order :: x < |g| && inDegree0[x] == 0
    requires neighbors == Dependents(g, current, |g|)
    ensures DegreesExactly(g, order + [current], inDegree)
    ensures ReadyExactly(g, order + [current], inDegree, ready)
  {
    inDegree, ready := inDegree0, ready0;
    assert neighbors[..0] == [];
    NeighborsWait(g, order, current, neighbors, inDegree0);
    for j := 0 to |neighbors|
      invariant Lowered(inDegree0, neighbors, j, inDegree)
      invariant ReadyExactly(g, order + [current], inDegree, ready)
    {
      var n := neighbors[j];
      LoweredStep(inDegree0, neighbors, j, inDegree);
      ReleaseOne(g, order + [current], inDegree, ready, n);
      inDegree := inDegree[n := inDegree[n] - 1];
      if inDegree[n] == 0 {
        ready := ready + [n];
      }
    }
    assert neighbors[..|neighbors|] == neighbors;
  }

  method KahnSort(g: Graph) returns (order: seq<nat>, stuck: set<nat>)
    requires Closed(g)
    ensures order == Order(g)
    ensures stuck == Leftover(g)
  {
    var inDegree, dependents := BuildEdges(g);
    var ready: seq<nat> := [];
    order := [];
    for i := 0 to |g|
      invariant forall x :: multiset(ready)[x] <= 1
      invariant forall x: nat :: x in ready <==> x < i && inDegree[x] == 0
    {
      if inDegree[i] == 0 {
        ready := ready + [i];
      }
    }
    forall i | 0 <= i < |g|
      ensures inDegree[i] == Remaining(g[i], {})
    {
      RemainingNone(g[i]);
    }
    assert Members([]) == {};
    while ready != []
      invariant DegreesExactly(g, order, inDegree)
      invariant ReadyExactly(g, order, inDegree, ready)
      invariant Greedy(g, order)
      invariant forall x <- order :: x < |g| && inDegree[x] == 0
      decreases |g| - |order|
    {
      OrderedDistinct(g, order);
      ReadyIsAvailable(g, order, inDegree, ready);
      var sorted := Sort(ready);
      SortMeaning(ready);
      var current := sorted[0];
      TakeLeast(g, order, ready, sorted);
      GreedyAppend(g, order, current);
      OrderedDistinct(g, order + [current]);
      TakeFirst(g, order, inDegree, ready, sorted);
      inDegree, ready := Release(g, order, current, dependents[current], inDegree, sorted[1..]);
      order := order + [current];
      ReleasedStayZero(g, order, inDegree);
    }
    ReadyIsAvailable(g, order, inDegree, ready);
    OrderGreedy(g);
    GreedyUnique(g, Order(g), order);
    stuck := set i | 0 <= i < |g| && inDegree[i] > 0;
    forall i | 0 <= i < |g|
      ensures inDegree[i] > 0 <==> i !in order
    {
      assert !(i in ready);
    }
  }

  lemma TakeLeast(g: Graph, order: seq<nat>, ready: seq<nat>, sorted: seq<nat>)
    requires ready != [] && Ascending(sorted) && multiset(sorted) == multiset(ready)
    requires forall i: nat :: i in ready <==> Available(g, order, i)
    ensures sorted != [] && LeastAvailable(g, order, sorted[0])
  {
    assert ready[0] in multiset(sorted);
    assert sorted[0] in multiset(ready);
    forall x <- ready
      ensures sorted[0] <= x
    {
      assert x in multiset(sorted);
    }
  }

  lemma TakeFirst(g: Graph, order: seq<nat>, inDegree: seq<nat>, ready: seq<nat>, sorted: seq<nat>)
    requires |inDegree| == |g| && ReadyExactly(g, order, inDegree, ready)
    requires sorted != [] && multiset(sorted) == multiset(ready)
    ensures ReadyExactly(g, order + [sorted[0]], inDegree, sorted[1..])
  {
    assert sorted == [sorted[0]] + sorted[1..];
    forall i: nat
      ensures i in sorted[1..] <==> i in ready && i != sorted[0]
    {
      assert multiset(sorted)[i] == multiset(ready)[i] <= 1;
      assert i in sorted[1..] <==> i in multiset(sorted[1..]);
      assert i in ready <==> i in multiset(ready);
    }
    forall i
      ensures multiset(sorted[1..])[i] <= 1
    {
      assert multiset(sorted)[i] == multiset(ready)[i];
    }
  }

  lemma ReleasedStayZero(g: Graph, order: seq<nat>, inDegree: seq<nat>)
    requires DegreesExactly(g, order, inDegree) && Greedy(g, order)
    ensures forall x <- order :: x < |g| && inDegree[x] == 0
  {
    forall x <- order
      ensures x < |g| && inDegree[x] == 0
    {
      var k :| 0 <= k < |order| && order[k] == x;
      assert LeastAvailable(g, order[..k], x);
      RemainingZero(g[x], Members(order));
    }
  }
}
