/** Dependency maps: what it means that one is closed and free of cycles, and the two certificates
    every scheduler of the repository relies on. */
module Graph {

  type Name = string
  /** Every name with the names it depends on, in their declared order (repetitions allowed). */
  type Deps = map<Name, seq<Name>>

  ghost predicate Closed(g: Deps) {
    forall n, d :: n in g && d in g[n] ==> d in g
  }

  /** A walk in which each name depends on the next one. */
  ghost predicate Chain(g: Deps, p: seq<Name>) {
    && p != []
    && (forall i | 0 <= i < |p| :: p[i] in g)
    && (forall i | 0 <= i < |p| - 1 :: p[i + 1] in g[p[i]])
  }

  ghost predicate Cycle(g: Deps, p: seq<Name>) {
    Chain(g, p) && p[0] in g[p[|p| - 1]]
  }

  ghost predicate Acyclic(g: Deps) {
    forall p :: !Cycle(g, p)
  }

  /** a is a transitive dependency of n. */
  ghost predicate DependsOn(g: Deps, n: Name, a: Name) {
    exists p :: Chain(g, p) && |p| >= 2 && p[0] == n && p[|p| - 1] == a
  }

  ghost predicate Distinct(s: seq<Name>) {
    forall i, j | 0 <= i < j < |s| :: s[i] != s[j]
  }

  /** Every name of the order comes after all of its dependencies. */
  ghost predicate Topological(g: Deps, order: seq<Name>) {
    && Distinct(order)
    && (forall n | n in order :: n in g)
    && (forall i, d | 0 <= i < |order| && d in g[order[i]] :: d in order[..i])
  }

  lemma DirectDependency(g: Deps, n: Name, d: Name)
    requires n in g && d in g[n] && d in g
    ensures DependsOn(g, n, d)
  {
    assert Chain(g, [n, d]);
  }

  lemma DependsOnTransitive(g: Deps, n: Name, d: Name, a: Name)
    requires n in g && d in g[n] && DependsOn(g, d, a)
    ensures DependsOn(g, n, a)
  {
    var p :| Chain(g, p) && |p| >= 2 && p[0] == d && p[|p| - 1] == a;
    var q := [n] + p;
    forall i | 0 <= i < |q| - 1 ensures q[i + 1] in g[q[i]] {
      if i > 0 {
        assert q[i] == p[i - 1] && q[i + 1] == p[i];
      }
    }
    assert Chain(g, q);
  }

  /** A chain never climbs up a topological order. */
  lemma {:induction false} ChainDescends(g: Deps, order: seq<Name>, p: seq<Name>, i: nat) returns (j: nat)
    requires Topological(g, order) && Chain(g, p)
    requires i < |order| && order[i] == p[0]
    ensures j <= i && order[j] == p[|p| - 1]
    decreases |p|
  {
    if |p| == 1 {
      j := i;
    } else {
      assert p[1] in order[..i];
      var k :| 0 <= k < i && order[k] == p[1];
      j := ChainDescends(g, order, p[1..], k);
    }
  }

  /** First certificate: an order of all names proves the map closed and acyclic. */
  lemma TopologicalIsAcyclic(g: Deps, order: seq<Name>)
    requires Topological(g, order) && (forall n | n in g :: n in order)
    ensures Closed(g) && Acyclic(g)
  {
    forall n, d | n in g && d in g[n] ensures d in g {
      var i :| 0 <= i < |order| && order[i] == n;
      assert d in order[..i];
    }
    forall p ensures !Cycle(g, p) {
      if Cycle(g, p) {
        var i :| 0 <= i < |order| && order[i] == p[0];
        var j := ChainDescends(g, order, p, i);
      }
    }
  }

  lemma {:induction false} DistinctBound(p: seq<Name>, s: set<Name>)
    requires Distinct(p) && (forall n | n in p :: n in s)
    ensures |p| <= |s|
  {
    if p != [] {
      var last := |p| - 1;
      assert forall i | 0 <= i < last :: p[i] != p[last];
      DistinctBound(p[..last], s - {p[last]});
    }
  }

  lemma ChainSuffix(g: Deps, p: seq<Name>, k: nat)
    requires Chain(g, p) && k < |p|
    ensures Chain(g, p[k..])
  {
  }

  lemma ChainSnoc(g: Deps, p: seq<Name>, d: Name)
    requires Chain(g, p) && d in g && d in g[p[|p| - 1]]
    ensures Chain(g, p + [d])
  {
  }

  /** A chain whose end depends on one of its members closes a cycle. */
  lemma ClosesCycle(g: Deps, p: seq<Name>, d: Name)
    requires Chain(g, p) && d in p && d in g[p[|p| - 1]]
    ensures exists c :: Cycle(g, c)
  {
    var k :| 0 <= k < |p| && p[k] == d;
    ChainSuffix(g, p, k);
    assert Cycle(g, p[k..]);
  }

  /** The name depends on one of the set. */
  ghost predicate Inward(g: Deps, s: set<Name>, n: Name) {
    n in g && exists d :: d in g[n] && d in s
  }

  /** So does every name of the set. */
  ghost predicate Sourceless(g: Deps, s: set<Name>) {
    forall n {:trigger Inward(g, s, n)} | n in s :: Inward(g, s, n)
  }

  lemma Longer(p: seq<Name>, d: Name, s: set<Name>)
    requires Distinct(p) && d !in p && d in s && forall n | n in p :: n in s
    ensures Distinct(p + [d]) && (forall n | n in p + [d] :: n in s) && |p + [d]| <= |s|
  {
    assert forall n :: n in p + [d] <==> n in p || n == d;
    DistinctBound(p + [d], s);
  }

  /** Second certificate: a nonempty set in which every name depends on a member of the set has a cycle. */
  lemma {:induction false} NoSourceHasCycle(g: Deps, s: set<Name>, p: seq<Name>)
    requires Distinct(p) && Chain(g, p) && (forall n | n in p :: n in s) && Sourceless(g, s)
    ensures exists c :: Cycle(g, c)
    decreases |s| - |p|
  {
    var last := p[|p| - 1];
    assert last in p && Inward(g, s, last);
    var d :| d in g[last] && d in s;
    if d in p {
      ClosesCycle(g, p, d);
    } else {
      assert Inward(g, s, d);
      ChainSnoc(g, p, d);
      Longer(p, d, s);
      NoSourceHasCycle(g, s, p + [d]);
    }
  }

  /** So in a closed acyclic map every nonempty set of names has one without a dependency inside it. */
  lemma AcyclicHasSource(g: Deps, s: set<Name>) returns (n: Name)
    requires Acyclic(g) && s != {} && (forall m | m in s :: m in g)
    ensures n in s && forall d | d in g[n] :: d !in s
  {
    if Sourceless(g, s) {
      var m :| m in s;
      NoSourceHasCycle(g, s, [m]);
      assert false;
    }
    n :| n in s && !exists d :: d in g[n] && d in s;
  }
}
