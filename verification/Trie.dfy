/** The output trie of research.validate_graph. A node is addressed by the parts that lead to it; its entry is
    the name stored under the None key, if any. */
module Trie {
  import opened Wrappers
  import opened Paths

  type Nodes = map<Parts, Option<string>>
  /** A declared output: the job's name and the path split at '/'. */
  type Output = (string, Parts)

  /** Two outputs of different jobs where one is the other or an ancestor of it. */
  predicate Conflict(x: Output, y: Output) {
    x.0 != y.0 && Nested(x.1, y.1)
  }

  /** Every node but the root hangs below another node. */
  ghost predicate Rooted(nodes: Nodes) {
    [] in nodes && forall a | a in nodes && a != [] :: a[..|a| - 1] in nodes
  }

  /** The entries of the trie are the outputs of done. */
  ghost predicate Entries(nodes: Nodes, done: set<Output>) {
    && (forall x | x in done :: x.1 in nodes && nodes[x.1] == Some(x.0))
    && (forall a | a in nodes && nodes[a].Some? :: (nodes[a].value, a) in done)
  }

  lemma {:induction false} RootedPrefix(nodes: Nodes, a: Parts, k: nat)
    requires Rooted(nodes) && a in nodes && k <= |a|
    ensures a[..k] in nodes
  {
    if k == |a| {
      assert a[..k] == a;
    } else {
      var up := a[..|a| - 1];
      RootedPrefix(nodes, up, k);
      assert up[..k] == a[..k];
    }
  }

  ghost predicate Foreign(nodes: Nodes, a: Parts, name: string) {
    a in nodes && nodes[a].Some? && nodes[a].value != name
  }

  /** nodes is nodes0 with some nodes without entry added. */
  ghost predicate Grown(nodes0: Nodes, nodes: Nodes) {
    && (forall a | a in nodes0 :: a in nodes && nodes[a] == nodes0[a])
    && (forall a | a in nodes && a !in nodes0 :: nodes[a] == None)
  }

  /** Walk down from the root, creating missing nodes; clear is false when a node above the end belongs to another
      job. */
  method Descend(nodes0: Nodes, name: string, path: Parts) returns (clear: bool, nodes: Nodes)
    requires Rooted(nodes0)
    ensures clear <==> forall k | 0 <= k < |path| :: !Foreign(nodes0, path[..k], name)
    ensures clear ==> Rooted(nodes) && Grown(nodes0, nodes) && path in nodes
  {
    nodes := nodes0;
    for i := 0 to |path|
      invariant forall k | 0 <= k < i :: !Foreign(nodes0, path[..k], name)
      invariant Rooted(nodes) && Grown(nodes0, nodes) && path[..i] in nodes
    {
      if nodes[path[..i]].Some? && nodes[path[..i]].value != name {
        return false, nodes;
      }
      var next := path[..i + 1];
      assert next[..|next| - 1] == path[..i];
      if next !in nodes {
        nodes := nodes[next := None];
      }
    }
    assert path[..|path|] == path;
    clear := true;
  }

  /** No address of the set lies above another one, so the subtrees below them are disjoint. */
  ghost predicate Antichain(s: set<Parts>) {
    forall a, b | a in s && b in s && a <= b :: a == b
  }

  ghost function Covered(nodes: Nodes, pending: set<Parts>): set<Parts> {
    set a | a in nodes && exists r :: r in pending && r <= a
  }

  function Kids(nodes: Nodes, a: Parts): set<Parts> {
    set b | b in nodes && |b| == |a| + 1 && a <= b
  }

  /** The subtree search: clear unless some node at or below end belongs to another job. */
  method SearchBelow(nodes: Nodes, name: string, end: Parts) returns (clear: bool)
    requires end in nodes
    requires Rooted(nodes)
    ensures clear <==> forall a | a in nodes && end <= a :: !Foreign(nodes, a, name)
  {
    var pending := {end};
    while pending != {}
      invariant Antichain(pending) && forall a | a in pending :: a in nodes && end <= a
      invariant forall a | a in nodes && end <= a && a !in Covered(nodes, pending) :: !Foreign(nodes, a, name)
      decreases Covered(nodes, pending)
    {
      var item :| item in pending;
      if nodes[item].Some? && nodes[item].value != name {
        assert Foreign(nodes, item, name);
        return false;
      }
      ghost var before := pending;
      pending := pending - {item} + Kids(nodes, item);
      PoppedOnce(nodes, before, item);
    }
    clear := true;
  }

  lemma PoppedOnce(nodes: Nodes, before: set<Parts>, item: Parts)
    requires Antichain(before) && item in before && item in nodes
    requires Rooted(nodes)
    ensures var after := before - {item} + Kids(nodes, item);
            Antichain(after) && Covered(nodes, after) == Covered(nodes, before) - {item}
  {
    var after := before - {item} + Kids(nodes, item);
    forall a | a in Covered(nodes, before) && a != item ensures a in Covered(nodes, after) {
      var r :| r in before && r <= a;
      if r == item {
        var kid := a[..|item| + 1];
        RootedPrefix(nodes, a, |item| + 1);
        assert kid in Kids(nodes, item) && kid <= a;
      } else {
        assert r in after;
      }
    }
    forall a | a in Covered(nodes, after) ensures a in Covered(nodes, before) && a != item {
      var r :| r in after && r <= a;
      if r in Kids(nodes, item) {
        assert item <= r;
      }
    }
  }

  /** One output: refused exactly when it conflicts with one already held. */
  method Add(nodes0: Nodes, x: Output, ghost done: set<Output>) returns (clear: bool, nodes: Nodes)
    requires Rooted(nodes0) && Entries(nodes0, done)
    ensures clear <==> forall y | y in done :: !Conflict(x, y)
    ensures clear ==> Rooted(nodes) && Entries(nodes, done + {x})
  {
    ConflictIsForeign(nodes0, x, done);
    clear, nodes := Descend(nodes0, x.0, x.1);
    if clear {
      clear := SearchBelow(nodes, x.0, x.1);
      GrownForeign(nodes0, nodes, x.1, x.0);
      if clear {
        assert !Foreign(nodes, x.1, x.0);
        nodes := nodes[x.1 := Some(x.0)];
      }
    }
  }

  lemma GrownForeign(nodes0: Nodes, nodes: Nodes, end: Parts, name: string)
    requires Grown(nodes0, nodes)
    ensures (exists a | a in nodes && end <= a :: Foreign(nodes, a, name)) <==>
            (exists a | a in nodes0 && end <= a :: Foreign(nodes0, a, name))
  {
    forall a | a in nodes0 && end <= a && Foreign(nodes0, a, name) ensures Foreign(nodes, a, name) {
    }
  }

  /** Conflicts with held outputs are the foreign entries above or below the new path. */
  lemma ConflictIsForeign(nodes: Nodes, x: Output, done: set<Output>)
    requires Entries(nodes, done)
    ensures (exists y :: y in done && Conflict(x, y)) <==>
            (exists k | 0 <= k < |x.1| :: Foreign(nodes, x.1[..k], x.0)) ||
            (exists a | a in nodes && x.1 <= a :: Foreign(nodes, a, x.0))
  {
    forall y | y in done && Conflict(x, y)
      ensures (exists k | 0 <= k < |x.1| :: Foreign(nodes, x.1[..k], x.0)) ||
            (exists a | a in nodes && x.1 <= a :: Foreign(nodes, a, x.0))
    {
      assert Foreign(nodes, y.1, x.0);
      if !(x.1 <= y.1) {
        assert x.1[..|y.1|] == y.1;
      }
    }
    forall k | 0 <= k < |x.1| && Foreign(nodes, x.1[..k], x.0) ensures exists y :: y in done && Conflict(x, y) {
      assert Conflict(x, (nodes[x.1[..k]].value, x.1[..k]));
    }
    forall a | a in nodes && x.1 <= a && Foreign(nodes, a, x.0) ensures exists y :: y in done && Conflict(x, y) {
      assert Conflict(x, (nodes[a].value, a));
    }
  }

  /** Every output a job set declares. */
  ghost function Declared(outputs: map<string, seq<Path>>): set<Output> {
    set n, p | n in outputs && p in outputs[n] :: (n, Split(p))
  }

  /** No two jobs of the set claim overlapping paths. */
  ghost predicate Disjoint(outputs: map<string, seq<Path>>) {
    forall n, m, p, q | n in outputs && m in outputs && n != m && p in outputs[n] && q in outputs[m] ::
      !Nested(Split(p), Split(q))
  }

  ghost predicate Apart(xs: set<Output>, ys: set<Output>) {
    forall x, y | x in xs && y in ys :: !Conflict(x, y)
  }

  /** The outputs of one job; a refusal comes with the two outputs that conflict. */
  method AddJob(nodes0: Nodes, name: string, paths: seq<Path>, ghost done0: set<Output>)
    returns (clear: bool, nodes: Nodes, ghost x: Output, ghost y: Output)
    requires Rooted(nodes0) && Entries(nodes0, done0)
    ensures clear ==> Rooted(nodes) && Entries(nodes, done0 + Outputs(name, paths))
    ensures clear ==> Apart(Outputs(name, paths), done0)
    ensures !clear ==> x in Outputs(name, paths) && y in done0 && Conflict(x, y)
  {
    nodes := nodes0;
    x := (name, []);
    y := x;
    assert Outputs(name, paths[..0]) == {};
    assert done0 + {} == done0;
    for j := 0 to |paths|
      invariant Rooted(nodes) && Entries(nodes, done0 + Outputs(name, paths[..j]))
      invariant Apart(Outputs(name, paths[..j]), done0)
    {
      ghost var done := done0 + Outputs(name, paths[..j]);
      x := (name, Split(paths[j]));
      clear, nodes := Add(nodes, (name, Split(paths[j])), done);
      if !clear {
        y :| y in done && Conflict(x, y);
        assert x in Outputs(name, paths);
        return;
      }
      OneMoreOutput(name, paths, j);
      assert done + {x} == done0 + Outputs(name, paths[..j + 1]);
    }
    assert paths[..|paths|] == paths;
    clear := true;
  }

  lemma OneMoreOutput(name: string, paths: seq<Path>, j: nat)
    requires j < |paths|
    ensures Outputs(name, paths[..j + 1]) == Outputs(name, paths[..j]) + {(name, Split(paths[j]))}
  {
    assert paths[..j + 1] == paths[..j] + [paths[j]];
  }

  ghost function Outputs(name: string, paths: seq<Path>): set<Output> {
    set p | p in paths :: (name, Split(p))
  }

  /** The outputs of the first i jobs. */
  ghost function DeclaredBy(order: seq<string>, outputs: map<string, seq<Path>>, i: nat): set<Output>
    requires i <= |order|
  {
    set x | x in Declared(outputs) && x.0 in order[..i]
  }

  lemma DeclaredStep(order: seq<string>, outputs: map<string, seq<Path>>, i: nat)
    requires i < |order| && order[i] in outputs
    ensures DeclaredBy(order, outputs, i + 1) == DeclaredBy(order, outputs, i) + Outputs(order[i], outputs[order[i]])
  {
    assert order[..i + 1] == order[..i] + [order[i]];
    forall x | x in Declared(outputs) && x.0 == order[i] ensures x in Outputs(order[i], outputs[order[i]]) {
      var p :| p in outputs[x.0] && x == (x.0, Split(p));
    }
  }

  /** The scan over all jobs in their order accepts exactly the pairwise disjoint sets. */
  method Check(order: seq<string>, outputs: map<string, seq<Path>>) returns (clear: bool)
    requires forall n :: n in order <==> n in outputs
    ensures clear <==> Disjoint(outputs)
  {
    var nodes: Nodes := map[[] := None];
    ghost var done: set<Output> := {};
    for i := 0 to |order|
      invariant Rooted(nodes) && Entries(nodes, done) && Apart(done, done)
      invariant done == DeclaredBy(order, outputs, i)
    {
      assert order[i] in order;
      ghost var x, y;
      clear, nodes, x, y := AddJob(nodes, order[i], outputs[order[i]], done);
      if !clear {
        Refused(order, outputs, i, x, y);
        return;
      }
      DeclaredStep(order, outputs, i);
      ApartStep(order[i], outputs[order[i]], done);
      done := done + Outputs(order[i], outputs[order[i]]);
    }
    Admitted(order, outputs);
    clear := true;
  }

  lemma Refused(order: seq<string>, outputs: map<string, seq<Path>>, i: nat, x: Output, y: Output)
    requires i < |order| && order[i] in outputs
    requires x in Outputs(order[i], outputs[order[i]]) && y in DeclaredBy(order, outputs, i) && Conflict(x, y)
    ensures !Disjoint(outputs)
  {
    assert y in Declared(outputs) && x in Declared(outputs);
    DisjointIsApart(outputs);
  }

  lemma Admitted(order: seq<string>, outputs: map<string, seq<Path>>)
    requires forall n :: n in order <==> n in outputs
    requires var all := DeclaredBy(order, outputs, |order|); Apart(all, all)
    ensures Disjoint(outputs)
  {
    assert order[..|order|] == order;
    assert DeclaredBy(order, outputs, |order|) == Declared(outputs);
    DisjointIsApart(outputs);
  }

  lemma ApartStep(name: string, paths: seq<Path>, done: set<Output>)
    requires Apart(done, done) && Apart(Outputs(name, paths), done)
    ensures Apart(done + Outputs(name, paths), done + Outputs(name, paths))
  {
    forall x, y | x in done && y in Outputs(name, paths) ensures !Conflict(x, y) {
      assert !Conflict(y, x);
    }
  }

  lemma DisjointIsApart(outputs: map<string, seq<Path>>)
    ensures Disjoint(outputs) <==> Apart(Declared(outputs), Declared(outputs))
  {
    if Apart(Declared(outputs), Declared(outputs)) {
      forall n, m, p, q | n in outputs && m in outputs && n != m && p in outputs[n] && q in outputs[m]
        ensures !Nested(Split(p), Split(q))
      {
        var x, y := (n, Split(p)), (m, Split(q));
        assert x in Declared(outputs) && y in Declared(outputs);
        assert !Conflict(x, y);
      }
    }
  }

  /** On the normalised paths that enqueue admits, the trie decides the pairwise string test of coordination.py. */
  lemma DisjointIsPairwise(outputs: map<string, seq<Path>>)
    requires forall n, p | n in outputs && p in outputs[n] :: Normal(p)
    ensures Disjoint(outputs) <==>
            forall n, m, p, q | n in outputs && m in outputs && n != m && p in outputs[n] && q in outputs[m] ::
              !Overlaps(p, q)
  {
    forall n, m, p, q | n in outputs && m in outputs && n != m && p in outputs[n] && q in outputs[m]
      ensures Overlaps(p, q) <==> Nested(Split(p), Split(q))
    {
      OverlapsIsNested(p, q);
    }
  }
}
