/** CodeMap.risk: the files a change can reach, found by a worklist over the reversed import edges. */
module CodeMap {
  import opened Graph

  type File = string

  /** f is changed, or has an import path to a changed file. */
  ghost predicate Affected(edges: Deps, changed: seq<File>, f: File) {
    f in changed || exists c :: c in changed && DependsOn(edges, f, c)
  }

  /** rev[t] is the set of files that import t. */
  ghost predicate Reversed(edges: Deps, rev: map<File, set<File>>) {
    rev.Keys == edges.Keys && forall t, p | t in rev :: p in rev[t] <==> p in edges && t in edges[p]
  }

  /** Enter one file among the importers of everything it imports. */
  method Import(p: File, targets: seq<File>, rev0: map<File, set<File>>) returns (rev: map<File, set<File>>)
    requires forall t | t in targets :: t in rev0
    ensures rev.Keys == rev0.Keys && forall t | t in rev :: rev[t] == rev0[t] + if t in targets then {p} else {}
  {
    rev := rev0;
    for j := 0 to |targets|
      invariant rev.Keys == rev0.Keys
      invariant forall t | t in rev :: rev[t] == rev0[t] + if t in targets[..j] then {p} else {}
    {
      assert targets[..j + 1] == targets[..j] + [targets[j]] && targets[j] in targets;
      rev := rev[targets[j] := rev[targets[j]] + {p}];
    }
    assert targets[..|targets|] == targets;
  }

  method Reverse(order: seq<File>, edges: Deps) returns (rev: map<File, set<File>>)
    requires forall p :: p in order <==> p in edges
    requires Closed(edges)
    ensures Reversed(edges, rev)
  {
    rev := map f | f in edges :: {};
    for i := 0 to |order|
      invariant rev.Keys == edges.Keys
      invariant forall t, p | t in rev :: p in rev[t] <==> p in order[..i] && p in edges && t in edges[p]
    {
      assert order[i] in order && order[..i + 1] == order[..i] + [order[i]];
      rev := Import(order[i], edges[order[i]], rev);
    }
    assert order[..|order|] == order;
  }

  /** Every file found so far has its importers found too, unless it is still queued. */
  ghost predicate Expanded(edges: Deps, affected: set<File>, queue: seq<File>) {
    forall f, p | f in affected && p in edges && f in edges[p] :: f in queue || p in affected
  }

  method Risk(order: seq<File>, edges: Deps, changed: seq<File>) returns (affected: set<File>)
    requires forall p :: p in order <==> p in edges
    requires Closed(edges)
    ensures forall f :: f in affected <==> Affected(edges, changed, f)
  {
    var rev := Reverse(order, edges);
    affected := set c | c in changed;
    var queue := changed;
    while queue != []
      invariant forall c | c in changed :: c in affected
      invariant forall f | f in affected :: Affected(edges, changed, f)
      invariant forall f | f in queue :: f in affected
      invariant Expanded(edges, affected, queue)
      decreases edges.Keys - affected, |queue|
    {
      var item := queue[0];
      var todo := if item in rev then rev[item] else {};
      ghost var before := affected;
      affected, queue := Enqueue(edges, changed, item, todo, affected, queue[1..]);
      assert edges.Keys - affected < edges.Keys - before || edges.Keys - affected == edges.Keys - before;
    }
    forall f | Affected(edges, changed, f) ensures f in affected {
      if f !in changed {
        var c :| c in changed && DependsOn(edges, f, c);
        var p :| Chain(edges, p) && |p| >= 2 && p[0] == f && p[|p| - 1] == c;
        ClimbsUp(edges, affected, p);
      }
    }
  }

  /** The body of the worklist loop: queue the importers of item that are new. */
  method Enqueue(edges: Deps, changed: seq<File>, item: File, importers: set<File>, affected0: set<File>,
                 queue0: seq<File>)
    returns (affected: set<File>, queue: seq<File>)
    requires Closed(edges) && forall p :: p in importers <==> p in edges && item in edges[p]
    requires Affected(edges, changed, item) && (forall f | f in queue0 :: f in affected0) && item in affected0
    requires (forall f | f in affected0 :: Affected(edges, changed, f)) && Expanded(edges, affected0, [item] + queue0)
    ensures affected0 <= affected && affected == affected0 + importers
    ensures affected == affected0 ==> queue == queue0
    ensures (forall f | f in affected :: Affected(edges, changed, f)) && (forall f | f in queue :: f in affected)
    ensures Expanded(edges, affected, queue)
  {
    affected, queue := affected0, queue0;
    var todo := importers;
    while todo != {}
      invariant todo <= importers && affected == affected0 + (importers - todo)
      invariant queue0 <= queue && (affected == affected0 ==> queue == queue0)
      invariant forall f :: f in queue <==> f in queue0 || (f in affected && f !in affected0)
      decreases todo
    {
      var p :| p in todo;
      todo := todo - {p};
      if p !in affected {
        affected := affected + {p};
        queue := queue + [p];
      }
    }
    forall p | p in importers ensures Affected(edges, changed, p) {
      ImporterAffected(edges, changed, item, p);
    }
  }

  lemma ImporterAffected(edges: Deps, changed: seq<File>, item: File, p: File)
    requires Closed(edges) && Affected(edges, changed, item) && p in edges && item in edges[p]
    ensures Affected(edges, changed, p)
  {
    if item in changed {
      DirectDependency(edges, p, item);
    } else {
      var c :| c in changed && DependsOn(edges, item, c);
      DependsOnTransitive(edges, p, item, c);
    }
  }

  /** A set closed under importers contains everything above its members. */
  lemma {:induction false} ClimbsUp(edges: Deps, affected: set<File>, p: seq<File>)
    requires Chain(edges, p) && p[|p| - 1] in affected
    requires Expanded(edges, affected, [])
    ensures p[0] in affected
  {
    if |p| > 1 {
      var q := p[1..];
      assert Chain(edges, q);
      ClimbsUp(edges, affected, q);
    }
  }
}
