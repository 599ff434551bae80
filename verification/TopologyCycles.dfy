/** Why a topological sort gets stuck: steps that wait for each other (agent/plan_validator.py). */
module TopologyCycles {
  import opened Topology

  predicate Waits(g: Graph, s: set<nat>, i: nat) {
    i < |g| && exists d <- g[i] :: d in s
  }

  /** A set of steps each of which waits for another one in the set. */
  predicate SelfDependent(g: Graph, s: set<nat>) {
    forall i {:trigger Waits(g, s, i)} :: i in s ==> Waits(g, s, i)
  }

  /** The steps that the sort could not emit. */
  function Leftover(g: Graph): set<nat> {
    set i | 0 <= i < |g| && i !in Order(g)
  }

  lemma {:induction false} SelfDependentNeverRuns(g: Graph, s: set<nat>, order: seq<nat>, k: nat)
    requires SelfDependent(g, s) && k <= |order|
    requires forall j :: 0 <= j < |order| ==> Available(g, order[..j], order[j])
    ensures forall j :: 0 <= j < k ==> order[j] !in s
    decreases k
  {
    if k > 0 {
      SelfDependentNeverRuns(g, s, order, k - 1);
      var i := order[k - 1];
      assert Available(g, order[..k - 1], i);
      forall d <- g[i]
        ensures d !in s
      {
        var j :| 0 <= j < k - 1 && order[..k - 1][j] == d;
      }
      assert !Waits(g, s, i);
    }
  }

  /** The steps left over are exactly the greatest set whose members all wait for each other. */
  lemma LeftoverGreatest(g: Graph)
    requires Closed(g)
    ensures SelfDependent(g, Leftover(g))
    ensures forall s: set<nat> :: SelfDependent(g, s) ==> s <= Leftover(g)
    ensures Leftover(g) == {} <==> |Order(g)| == |g|
  {
    OrderGreedy(g);
    var order := Order(g);
    OrderedDistinct(g, order);
    forall i <- Leftover(g)
      ensures Waits(g, Leftover(g), i)
    {
      assert !Available(g, order, i);
      var d :| d in g[i] && d !in order;
      assert d in Leftover(g);
    }
    forall s: set<nat> | SelfDependent(g, s)
      ensures s <= Leftover(g)
    {
      SelfDependentNeverRuns(g, s, order, |order|);
      forall i <- s
        ensures i in Leftover(g)
      {
        assert Waits(g, s, i);
      }
    }
    if Leftover(g) == {} {
      forall i: nat | i < |g|
        ensures i in order
      {
        assert i !in Leftover(g);
      }
      MembersSize(order);
      BelowMeaning(|g|);
      assert Members(order) == Below(|g|);
    }
  }

  /** A closed walk along dependencies. */
  predicate IsCycle(g: Graph, c: seq<nat>) {
    && |c| >= 2 && c[0] == c[|c| - 1]
    && forall j :: 0 <= j < |c| - 1 ==> c[j] < |g| && c[j + 1] in g[c[j]]
  }

  lemma CycleSelfDependent(g: Graph, c: seq<nat>)
    requires IsCycle(g, c)
    ensures SelfDependent(g, Members(c)) && Members(c) != {}
  {
    forall i <- Members(c)
      ensures Waits(g, Members(c), i)
    {
      var j :| 0 <= j < |c| && c[j] == i;
      var k := if j == |c| - 1 then 0 else j;
      assert c[k] == i && c[k + 1] in g[i];
    }
    assert c[0] in Members(c);
  }

  lemma {:induction false} WalkInside(g: Graph, s: set<nat>, n: nat) returns (w: seq<nat>)
    requires SelfDependent(g, s) && s != {}
    ensures |w| == n + 1 && (forall x <- w :: x in s)
    ensures forall j :: 0 <= j < n ==> w[j] < |g| && w[j + 1] in g[w[j]]
    decreases n
  {
    if n == 0 {
      var x :| x in s;
      w := [x];
    } else {
      var v := WalkInside(g, s, n - 1);
      var i := v[n - 1];
      assert Waits(g, s, i);
      var d :| d in g[i] && d in s;
      w := v + [d];
    }
  }

  lemma Repeats(w: seq<nat>, n: nat) returns (i: nat, j: nat)
    requires |w| == n + 1 && forall x <- w :: x < n
    ensures i < j < |w| && w[i] == w[j]
  {
    if Distinct(w) {
      DistinctBound(w, n);
      assert false;
    }
    i, j :| 0 <= i < j < |w| && w[i] == w[j];
  }

  lemma SelfDependentHasCycle(g: Graph, s: set<nat>) returns (c: seq<nat>)
    requires SelfDependent(g, s) && s != {}
    ensures IsCycle(g, c)
  {
    var w := WalkInside(g, s, |g|);
    forall x <- w
      ensures x < |g|
    {
      assert Waits(g, s, x);
    }
    var i, j := Repeats(w, |g|);
    c := w[i..j + 1];
  }

  /** The sort is complete exactly when no step depends, directly or through others, on itself. */
  lemma CompleteIffAcyclic(g: Graph)
    requires Closed(g)
    ensures |Order(g)| == |g| <==> !exists c :: IsCycle(g, c)
  {
    LeftoverGreatest(g);
    if Leftover(g) != {} {
      var c := SelfDependentHasCycle(g, Leftover(g));
    }
    if exists c :: IsCycle(g, c) {
      var c :| IsCycle(g, c);
      CycleSelfDependent(g, c);
      assert Members(c) <= Leftover(g);
    }
  }
}
