/** The recursive dependency check of team.plan_definition, which colours names while it descends. */
module PlanDfs {
  import opened Graph
  import opened Kahn

  class Walker {
    const g: Deps
    var visiting: set<Name>
    var visited: set<Name>
    ghost var path: seq<Name>   // the calls on the recursion stack, outermost first
    ghost var order: seq<Name>  // the names in the order in which they turned visited

    ghost predicate Valid()
      reads this
    {
      && visiting !! visited
      && visiting == (set n | n in path) && visited == (set n | n in order)
      && Topological(g, order)
      && Distinct(path)
      && (path != [] ==> Chain(g, path))
    }

    constructor (g: Deps)
      ensures Valid() && this.g == g && visiting == {} && visited == {} && path == []
    {
      this.g := g;
      visiting, visited := {}, {};
      path, order := [], [];
    }

    /** visit(name), called from the name on top of the stack. Accepted leaves name visited and the stack as it was. */
    method Visit(name: Name) returns (r: Outcome)
      requires Valid() && name in g && (path == [] || name in g[path[|path| - 1]])
      modifies this
      ensures r == Accepted ==> Valid() && visiting == old(visiting) && path == old(path)
      ensures r == Accepted ==> name in visited && old(visited) <= visited
      ensures r == Unknown ==> !Closed(g)
      ensures r == Cyclic ==> exists c :: Cycle(g, c)
      decreases g.Keys - visiting
    {
      if name in visiting {
        LoopOnStack(g, path, name);
        return Cyclic;
      }
      if name in visited {
        return Accepted;
      }
      Enter(name);
      var deps := g[name];
      for i := 0 to |deps|
        invariant Valid() && path == old(path) + [name] && visiting == old(visiting) + {name}
        invariant old(visited) <= visited
        invariant forall d | d in deps[..i] :: d in visited
      {
        if deps[i] !in g {
          assert deps[i] in g[name];
          return Unknown;
        }
        r := Visit(deps[i]);
        if r != Accepted {
          return;
        }
      }
      Leave(name);
      r := Accepted;
    }

    method Enter(name: Name)
      requires Valid() && name in g && name !in visiting && name !in visited &&
               (path == [] || name in g[path[|path| - 1]])
      modifies this
      ensures Valid() && path == old(path) + [name] && visiting == old(visiting) + {name} && visited == old(visited)
      ensures old(g.Keys - visiting) > g.Keys - visiting
    {
      visiting := visiting + {name};
      path := path + [name];
      assert name in old(g.Keys - visiting);
    }

    method Leave(name: Name)
      requires Valid() && path != [] && path[|path| - 1] == name
      requires forall d | d in g[name] :: d in visited
      modifies this
      ensures Valid() && path == old(path)[..|old(path)| - 1] && visiting == old(visiting) - {name}
      ensures visited == old(visited) + {name}
    {
      order := order + [name];
      assert forall i | 0 <= i < |order| - 1 :: order[..i] == old(order)[..i];
      visiting := visiting - {name};
      visited := visited + {name};
      path := path[..|path| - 1];
    }
  }

  /** Meeting a name that is still on the stack closes a cycle. */
  lemma LoopOnStack(g: Deps, path: seq<Name>, name: Name)
    requires Chain(g, path) && name in path && name in g[path[|path| - 1]]
    ensures exists c :: Cycle(g, c)
  {
    var k :| 0 <= k < |path| && path[k] == name;
    assert Cycle(g, path[k..]);
  }

  method Check(order: seq<Name>, g: Deps) returns (r: Outcome)
    requires Lists(order, g)
    ensures r == Accepted <==> Closed(g) && Acyclic(g)
    ensures r == Unknown ==> !Closed(g)
    ensures r == Cyclic ==> exists c :: Cycle(g, c)
  {
    var w := new Walker(g);
    for i := 0 to |order|
      invariant fresh(w) && w.Valid() && w.g == g && w.path == []
      invariant forall k | 0 <= k < i :: order[k] in w.visited
    {
      assert order[i] in order;
      r := w.Visit(order[i]);
      if r != Accepted {
        return;
      }
    }
    TopologicalIsAcyclic(g, w.order);
    return Accepted;
  }
}
