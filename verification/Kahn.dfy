/** The iterative dependency check of research.validate_graph: count open dependencies, retire what has none. */
module Kahn {
  import opened Graph

  /** How many entries of ds are not in done yet. */
  function Open(ds: seq<Name>, done: set<Name>): nat {
    if ds == [] then 0 else (if ds[0] in done then 0 else 1) + Open(ds[1..], done)
  }

  lemma {:induction false} OpenAfter(ds: seq<Name>, done: set<Name>, x: Name)
    requires x !in done
    ensures Open(ds, done) == Open(ds, done + {x}) + multiset(ds)[x]
  {
    if ds != [] {
      OpenAfter(ds[1..], done, x);
      assert ds == [ds[0]] + ds[1..];
    }
  }

  lemma {:induction false} OpenZero(ds: seq<Name>, done: set<Name>)
    ensures Open(ds, done) == 0 <==> forall d | d in ds :: d in done
  {
    if ds != [] {
      OpenZero(ds[1..], done);
      assert ds == [ds[0]] + ds[1..];
    }
  }

  lemma {:induction false} OpenNothing(ds: seq<Name>)
    ensures Open(ds, {}) == |ds|
  {
    if ds != [] {
      OpenNothing(ds[1..]);
    }
  }

  datatype Outcome = Accepted | Unknown | Cyclic

  /** What a dependency check may answer about g. */
  ghost predicate Correct(g: Deps, r: Outcome) {
    && (r == Accepted <==> Closed(g) && Acyclic(g))
    && (r == Unknown <==> !Closed(g))
    && (r == Cyclic ==> exists c :: Cycle(g, c))
  }

  /** A dictionary's keys in insertion order. */
  ghost predicate Lists<T>(order: seq<Name>, m: map<Name, T>) {
    Distinct(order) && forall n :: n in order <==> n in m
  }

  /** How often c must stand among the dependants of d once the names of seen are entered. */
  ghost function Edges(g: Deps, seen: set<Name>, d: Name, c: Name): nat {
    if c in seen && c in g then multiset(g[c])[d] else 0
  }

  ghost predicate Mirror(g: Deps, seen: set<Name>, children: map<Name, seq<Name>>) {
    children.Keys == g.Keys && forall d, c | d in g :: multiset(children[d])[c] == Edges(g, seen, d, c)
  }

  /** Enter one name with its dependencies, or find a dependency that is not a name. */
  method EnterEdges(name: Name, deps: seq<Name>, before: map<Name, seq<Name>>)
    returns (known: bool, children: map<Name, seq<Name>>)
    ensures known <==> forall d | d in deps :: d in before
    ensures known ==> children.Keys == before.Keys
    ensures known ==> (forall d, c | d in before ::
                          multiset(children[d])[c] ==
                          multiset(before[d])[c] + if c == name then multiset(deps)[d] else 0)
  {
    children := before;
    for j := 0 to |deps|
      invariant children.Keys == before.Keys
      invariant forall d | d in deps[..j] :: d in before
      invariant forall d, c | d in before ::
                  (multiset(children[d])[c] == multiset(before[d])[c] + if c == name then multiset(deps[..j])[d] else 0)
    {
      if deps[j] !in before {
        return false, children;
      }
      assert deps[..j + 1] == deps[..j] + [deps[j]];
      children := children[deps[j] := children[deps[j]] + [name]];
    }
    assert deps[..|deps|] == deps;
    known := true;
  }

  /** For every name, its dependants; not known when some dependency is not a name. */
  method Children(order: seq<Name>, g: Deps) returns (known: bool, children: map<Name, seq<Name>>)
    requires Lists(order, g)
    ensures known <==> Closed(g)
    ensures known ==> Mirror(g, g.Keys, children)
  {
    children := map n | n in g :: [];
    ghost var seen: set<Name> := {};
    for i := 0 to |order|
      invariant seen == Prefix(order, i)
      invariant ClosedOn(g, seen)
      invariant Mirror(g, seen, children)
    {
      var name := order[i];
      ghost var before := children;
      assert name in order;
      known, children := EnterEdges(name, g[name], children);
      if !known {
        return;
      }
      assert name !in seen;
      MirrorStep(g, seen, name, before, children);
      seen := seen + {name};
    }
    assert seen == g.Keys;
    known := true;
  }

  ghost function Prefix(order: seq<Name>, i: nat): set<Name>
    requires i <= |order|
  {
    set k | 0 <= k < i :: order[k]
  }

  ghost predicate ClosedOn(g: Deps, seen: set<Name>) {
    forall n, d | n in g && n in seen && d in g[n] :: d in g
  }

  lemma MirrorStep(g: Deps, seen: set<Name>, name: Name, before: map<Name, seq<Name>>, children: map<Name, seq<Name>>)
    requires Mirror(g, seen, before) && name in g && name !in seen && children.Keys == g.Keys
    requires forall d, c | d in before ::
               (multiset(children[d])[c] == multiset(before[d])[c] + if c == name then multiset(g[name])[d] else 0)
    ensures Mirror(g, seen + {name}, children)
  {
    forall d, c | d in g ensures multiset(children[d])[c] == Edges(g, seen + {name}, d, c) {
      assert multiset(before[d])[c] == Edges(g, seen, d, c);
    }
  }

  /** What is known in the middle of the run: who is retired, who waits for how many, who is ready. */
  ghost predicate Retiring(g: Deps, parents: map<Name, nat>, ready: seq<Name>, retired: seq<Name>) {
    && parents.Keys == g.Keys
    && Topological(g, retired)
    && Distinct(ready)
    && (forall n | n in g :: parents[n] == Open(g[n], set r | r in retired))
    && (forall n :: n in ready <==> n in g && n !in retired && parents[n] == 0)
  }

  /** Retire one ready name: its dependants wait for one entry less each, and some become ready. */
  method Retire(g: Deps, children: map<Name, seq<Name>>, parents0: map<Name, nat>, ready0: seq<Name>,
                ghost retired: seq<Name>)
    returns (parents: map<Name, nat>, ready: seq<Name>)
    requires Closed(g) && Mirror(g, g.Keys, children)
    requires Retiring(g, parents0, ready0, retired) && ready0 != []
    ensures Retiring(g, parents, ready, retired + [ready0[0]])
  {
    var name := ready0[0];
    ghost var done := set r | r in retired;
    ghost var want := map n | n in g :: Open(g[n], done + {name});
    assert name in ready0;
    RetirementCounts(g, children, parents0, ready0, retired, done, want);
    OthersStayReady(g, parents0, ready0, retired, done);
    parents, ready := Release(children[name], parents0, ready0[1..], want, done + {name});
    RetirementEnds(g, parents0, ready0, retired, done, want, ready);
  }

  lemma RetirementCounts(g: Deps, children: map<Name, seq<Name>>, parents: map<Name, nat>, ready: seq<Name>,
                         retired: seq<Name>, done: set<Name>, want: map<Name, nat>)
    requires Mirror(g, g.Keys, children) && Retiring(g, parents, ready, retired) && ready != [] && ready[0] in ready &&
             ready[0] in g
    requires done == (set r | r in retired) && want == map n | n in g :: Open(g[n], done + {ready[0]})
    ensures forall n | n in parents :: parents[n] == want[n] + multiset(children[ready[0]])[n]
    ensures forall c | c in children[ready[0]] :: c in parents && c !in done + {ready[0]}
  {
    EntriesLeft(g, children, parents, done, ready[0]);
    RetiredWaitForNothing(g, retired);
  }

  lemma OthersStayReady(g: Deps, parents: map<Name, nat>, ready: seq<Name>, retired: seq<Name>, done: set<Name>)
    requires Retiring(g, parents, ready, retired) && ready != [] && done == (set r | r in retired)
    ensures Distinct(ready[1..])
    ensures forall n :: n in ready[1..] <==> n in parents && n !in done + {ready[0]} && parents[n] == 0
  {
    assert ready == [ready[0]] + ready[1..];
    forall n ensures n in ready[1..] <==> n in ready && n != ready[0] {
      if n in ready && n != ready[0] {
        var k :| 0 <= k < |ready| && ready[k] == n;
        assert ready[1..][k - 1] == n;
      }
    }
  }

  lemma RetirementEnds(g: Deps, parents: map<Name, nat>, ready0: seq<Name>, retired: seq<Name>, done: set<Name>,
                       want: map<Name, nat>, ready: seq<Name>)
    requires Retiring(g, parents, ready0, retired) && ready0 != [] && ready0[0] in g
    requires done == (set r | r in retired) && want == map n | n in g :: Open(g[n], done + {ready0[0]})
    requires Distinct(ready) && forall n :: n in ready <==> n in want && n !in done + {ready0[0]} && want[n] == 0
    ensures Retiring(g, want, ready, retired + [ready0[0]])
  {
    RetiredOnce(g, parents, ready0, retired);
    assert (set r | r in retired + [ready0[0]]) == done + {ready0[0]};
  }

  lemma OneKidLess(kids: seq<Name>, j: nat)
    requires j < |kids|
    ensures multiset(kids[j..]) == multiset(kids[j + 1..])[kids[j] := multiset(kids[j + 1..])[kids[j]] + 1]
  {
    assert kids[j..] == [kids[j]] + kids[j + 1..];
  }

  /** The inner loop of a retirement: one entry less for every dependant listed. */
  method Release(kids: seq<Name>, parents0: map<Name, nat>, ready0: seq<Name>, ghost want: map<Name, nat>,
                 ghost done: set<Name>)
    returns (parents: map<Name, nat>, ready: seq<Name>)
    requires want.Keys == parents0.Keys && Distinct(ready0) && (forall c | c in kids :: c in parents0)
    requires forall n | n in parents0 :: parents0[n] == want[n] + multiset(kids)[n]
    requires forall n :: n in ready0 <==> n in parents0 && n !in done && parents0[n] == 0
    requires forall c | c in kids :: c !in done
    ensures parents == want && Distinct(ready)
    ensures forall n :: n in ready <==> n in want && n !in done && want[n] == 0
  {
    parents, ready := parents0, ready0;
    for j := 0 to |kids|
      invariant parents.Keys == parents0.Keys && Distinct(ready)
      invariant forall n | n in parents :: parents[n] == want[n] + multiset(kids[j..])[n]
      invariant forall n :: n in ready <==> n in parents && n !in done && parents[n] == 0
    {
      var child := kids[j];
      OneKidLess(kids, j);
      parents := parents[child := parents[child] - 1];
      if parents[child] == 0 {
        ready := ready + [child];
      }
    }
  }

  lemma RetiredWaitForNothing(g: Deps, retired: seq<Name>)
    requires Topological(g, retired)
    ensures forall n | n in retired :: Open(g[n], set r | r in retired) == 0
  {
    forall n | n in retired ensures Open(g[n], set r | r in retired) == 0 {
      var i :| 0 <= i < |retired| && retired[i] == n;
      assert forall d | d in g[n] :: d in retired[..i];
      OpenZero(g[n], set r | r in retired);
    }
  }

  /** Retiring name takes away one open entry per listed dependant. */
  lemma EntriesLeft(g: Deps, children: map<Name, seq<Name>>, parents: map<Name, nat>, done: set<Name>, name: Name)
    requires Mirror(g, g.Keys, children) && name in g && name !in done
    requires parents.Keys == g.Keys && forall n | n in g :: parents[n] == Open(g[n], done)
    ensures forall n | n in g :: parents[n] == Open(g[n], done + {name}) + multiset(children[name])[n]
    ensures forall c | c in children[name] :: c in g && parents[c] > 0
  {
    forall n | n in g ensures parents[n] == Open(g[n], done + {name}) + multiset(children[name])[n] {
      OpenAfter(g[n], done, name);
      assert multiset(children[name])[n] == Edges(g, g.Keys, name, n);
    }
    forall c | c in children[name] ensures c in g && parents[c] > 0 {
      assert multiset(children[name])[c] == Edges(g, g.Keys, name, c);
    }
  }

  lemma RetiredOnce(g: Deps, parents: map<Name, nat>, ready: seq<Name>, retired: seq<Name>)
    requires Retiring(g, parents, ready, retired) && ready != []
    ensures Topological(g, retired + [ready[0]])
  {
    var name := ready[0];
    assert name in ready;
    OpenZero(g[name], set r | r in retired);
    var order := retired + [name];
    forall i, d | 0 <= i < |order| && d in g[order[i]] ensures d in order[..i] {
      if i < |retired| {
        assert order[..i] == retired[..i];
      } else {
        assert order[..i] == retired;
      }
    }
  }

  /** When nothing is ready, the names never retired depend on each other in a cycle. */
  lemma StuckHasCycle(g: Deps, parents: map<Name, nat>, retired: seq<Name>, n: Name)
    requires Closed(g) && Retiring(g, parents, [], retired) && n in g && n !in retired
    ensures exists c :: Cycle(g, c)
  {
    var done := set r | r in retired;
    var left := g.Keys - done;
    forall m | m in left ensures exists d :: d in g[m] && d in left {
      assert m !in [];
      OpenZero(g[m], done);
    }
    NoSourceHasCycle(g, left, [n]);
  }

  /** The names that wait for nothing, in order. */
  method Sources(order: seq<Name>, parents: map<Name, nat>) returns (ready: seq<Name>)
    requires Distinct(order) && forall n | n in order :: n in parents
    ensures Distinct(ready) && forall n :: n in ready <==> n in order && parents[n] == 0
  {
    ready := [];
    for i := 0 to |order|
      invariant Distinct(ready)
      invariant forall n :: n in ready <==> n in order[..i] && parents[n] == 0
    {
      assert order[..i + 1] == order[..i] + [order[i]] && order[i] in order && order[i] !in order[..i];
      if parents[order[i]] == 0 {
        ready := ready + [order[i]];
      }
    }
    assert order[..|order|] == order;
  }

  lemma NothingRetiredYet(g: Deps, parents: map<Name, nat>, ready: seq<Name>)
    requires parents == map n | n in g :: |g[n]|
    requires Distinct(ready) && forall n :: n in ready <==> n in g && parents[n] == 0
    ensures Retiring(g, parents, ready, [])
  {
    forall n | n in g ensures parents[n] == Open(g[n], set r | r in []) {
      OpenNothing(g[n]);
      assert (set r: Name | r in []) == {};
    }
  }

  method Check(order: seq<Name>, g: Deps) returns (r: Outcome)
    requires Lists(order, g)
    ensures Correct(g, r)
  {
    var parents: map<Name, nat> := map n | n in g :: |g[n]|;
    var known, children := Children(order, g);
    if !known {
      return Unknown;
    }
    var ready := Sources(order, parents);
    NothingRetiredYet(g, parents, ready);
    var seen := 0;
    ghost var retired: seq<Name> := [];
    while ready != []
      invariant Retiring(g, parents, ready, retired) && seen == |retired|
      decreases |g| - |retired|
    {
      RetiredOnce(g, parents, ready, retired);
      DistinctBound(retired + [ready[0]], g.Keys);
      ghost var name := ready[0];
      parents, ready := Retire(g, children, parents, ready, retired);
      seen := seen + 1;
      retired := retired + [name];
    }
    r := if seen != |g| then Cyclic else Accepted;
    Verdict(g, parents, retired, seen);
  }

  /** The count decides: everything retired is an order, anything left is a cycle. */
  lemma Verdict(g: Deps, parents: map<Name, nat>, retired: seq<Name>, seen: nat)
    requires Closed(g) && Retiring(g, parents, [], retired) && seen == |retired|
    ensures Correct(g, if seen != |g| then Cyclic else Accepted)
  {
    AllOrOne(g, retired);
    if seen != |g| {
      var n :| n in g && n !in retired;
      StuckHasCycle(g, parents, retired, n);
    } else {
      TopologicalIsAcyclic(g, retired);
    }
  }

  /** Counting the retired names tells whether all of them were. */
  lemma AllOrOne(g: Deps, retired: seq<Name>)
    requires Topological(g, retired)
    ensures |retired| == |g| <==> forall n | n in g :: n in retired
  {
    var done := set r | r in retired;
    DistinctSize(retired);
    assert done <= g.Keys;
    if |retired| == |g| && done != g.Keys {
      SubsetSize(done, g.Keys);
    }
    if forall n | n in g :: n in retired {
      assert done == g.Keys;
    }
  }

  lemma {:induction false} DistinctSize(p: seq<Name>)
    requires Distinct(p)
    ensures |set n | n in p| == |p|
  {
    if p != [] {
      var last := |p| - 1;
      DistinctSize(p[..last]);
      assert (set n | n in p) == (set n | n in p[..last]) + {p[last]};
    }
  }

  lemma SubsetSize(a: set<Name>, b: set<Name>)
    requires a < b
    ensures |a| < |b|
  {
    assert b == a + (b - a);
  }
}
