/** The plans that team.plan_definition accepts, and the check that decides it. */
module Plans {
  import opened Graph
  import opened Paths
  import opened Texts
  import opened Work
  import Kahn
  import PlanDfs

  const CONTROL := {".git", ".codex", ".agents"}
  const MAX_TASKS := 32
  const MAX_PATHS := 100

  predicate DistinctTasks(tasks: seq<Task>) {
    forall i, j | 0 <= i < j < |tasks| :: tasks[i].id != tasks[j].id
  }

  /** What makes two briefs the same work: the words of their descriptions. */
  function Wording(b: Brief): Brief {
    if b.Lens? then b else Given("", b.words, [], "")
  }

  predicate DistinctWork(tasks: seq<Task>) {
    forall i, j | 0 <= i < j < |tasks| :: Wording(tasks[i].brief) != Wording(tasks[j].brief)
  }

  /** team.IDENT */
  predicate Identifier(x: string) {
    1 <= |x| <= 48 && 'a' <= x[0] <= 'z' &&
    forall c | c in x :: 'a' <= c <= 'z' || '0' <= c <= '9' || c == '_' || c == '-'
  }

  predicate BriefOk(b: Brief) {
    b.Given? ==> TextOk(b.description, 12000) && b.doneWhen != [] && TextsOk(b.doneWhen, 3000) && TextOk(b.why, 3000)
  }

  /** A list of paths to work on: not empty, not too long, not repeating, none of them control files. */
  predicate PathsOk(paths: seq<Path>) {
    && 1 <= |paths| <= MAX_PATHS
    && (forall i, j | 0 <= i < j < |paths| :: paths[i] != paths[j])
    && (forall p | p in paths :: Split(p)[0] !in CONTROL)
  }

  /** What team.plan_definition demands of one task. */
  predicate TaskOk(t: Task) {
    && Identifier(t.id) && BriefOk(t.brief)
    && PathsOk(t.paths) && (t.kind == Implement ==> "." !in t.paths)
    && (forall i, j | 0 <= i < j < |t.dependsOn| :: t.dependsOn[i] != t.dependsOn[j])
  }

  /** What the first n tasks wait for. */
  function DependenciesTo(tasks: seq<Task>, n: nat): Deps
    requires n <= |tasks| && DistinctTasks(tasks)
  {
    map i | 0 <= i < n :: tasks[i].id := tasks[i].dependsOn
  }

  function DependenciesOf(tasks: seq<Task>): Deps
    requires DistinctTasks(tasks)
  {
    DependenciesTo(tasks, |tasks|)
  }

  /** The plans that team.plan_definition accepts. */
  ghost predicate Admissible(tasks: seq<Task>) {
    |tasks| <= MAX_TASKS && DistinctTasks(tasks) && DistinctWork(tasks) && (forall t | t in tasks :: TaskOk(t)) &&
    Closed(DependenciesOf(tasks)) && Acyclic(DependenciesOf(tasks))
  }

  /** Tasks that wait for nothing form a plan if each is acceptable by itself. */
  lemma IndependentTasksAdmissible(tasks: seq<Task>)
    requires |tasks| <= MAX_TASKS && DistinctTasks(tasks) && DistinctWork(tasks)
    requires forall t | t in tasks :: TaskOk(t) && t.dependsOn == []
    ensures Admissible(tasks)
  {
    var g := DependenciesOf(tasks);
    forall p | Chain(g, p) ensures p[0] !in g[p[|p| - 1]] {
      assert g[p[|p| - 1]] == [];
    }
  }

  /** team.plan_definition: the tasks one by one, then their dependencies. */
  method Validate(tasks: seq<Task>) returns (ok: bool)
    ensures ok <==> Admissible(tasks)
  {
    ok := |tasks| <= MAX_TASKS;
    if ok {
      ok := CheckTasks(tasks);
    }
    if ok {
      var names, g := Dependencies(tasks);
      var r := PlanDfs.Check(names, g);
      ok := r == Kahn.Accepted;
    }
  }

  /** Neither identifier nor work of the task occurs before it. */
  predicate Unlike(tasks: seq<Task>, i: nat)
    requires i < |tasks|
  {
    forall k | 0 <= k < i :: tasks[k].id != tasks[i].id && Wording(tasks[k].brief) != Wording(tasks[i].brief)
  }

  lemma UnlikeIsDistinct(tasks: seq<Task>)
    requires forall i | 0 <= i < |tasks| :: Unlike(tasks, i)
    ensures DistinctTasks(tasks) && DistinctWork(tasks)
  {
    forall i, j | 0 <= i < j < |tasks|
      ensures tasks[i].id != tasks[j].id && Wording(tasks[i].brief) != Wording(tasks[j].brief)
    {
      assert Unlike(tasks, j);
    }
  }

  method CheckTasks(tasks: seq<Task>) returns (ok: bool)
    ensures ok <==> DistinctTasks(tasks) && DistinctWork(tasks) && forall t | t in tasks :: TaskOk(t)
  {
    var ids: set<string>, descriptions: set<Brief> := {}, {};
    for i := 0 to |tasks|
      invariant forall k | 0 <= k < i :: Unlike(tasks, k) && TaskOk(tasks[k])
      invariant ids == set k | 0 <= k < i :: tasks[k].id
      invariant descriptions == set k | 0 <= k < i :: Wording(tasks[k].brief)
    {
      var t := tasks[i];
      if t.id in ids || Wording(t.brief) in descriptions || !TaskOk(t) {
        assert t in tasks;
        return false;
      }
      assert Unlike(tasks, i);
      ids, descriptions := ids + {t.id}, descriptions + {Wording(t.brief)};
    }
    UnlikeIsDistinct(tasks);
    ok := true;
  }

  method Dependencies(tasks: seq<Task>) returns (names: seq<string>, g: Deps)
    requires DistinctTasks(tasks)
    ensures Kahn.Lists(names, g) && g == DependenciesOf(tasks)
  {
    names, g := [], map[];
    for i := 0 to |tasks|
      invariant |names| == i && forall k | 0 <= k < i :: names[k] == tasks[k].id
      invariant g == DependenciesTo(tasks, i)
    {
      OneMoreTask(tasks, i);
      names, g := names + [tasks[i].id], g[tasks[i].id := tasks[i].dependsOn];
    }
    NamesListed(tasks, names);
  }

  lemma OneMoreTask(tasks: seq<Task>, i: nat)
    requires i < |tasks| && DistinctTasks(tasks)
    ensures DependenciesTo(tasks, i + 1) == DependenciesTo(tasks, i)[tasks[i].id := tasks[i].dependsOn]
  {
  }

  lemma NamesListed(tasks: seq<Task>, names: seq<string>)
    requires DistinctTasks(tasks) && |names| == |tasks| && forall k | 0 <= k < |tasks| :: names[k] == tasks[k].id
    ensures Kahn.Lists(names, DependenciesOf(tasks))
  {
    forall n ensures n in names <==> n in DependenciesOf(tasks) {
      if n in DependenciesOf(tasks) {
        var k :| 0 <= k < |tasks| && tasks[k].id == n;
        assert names[k] == n;
      }
    }
  }

  // ---------- what makes a task acceptable ----------

  /** A lower-case letter and up to 47 letters, digits, underscores and hyphens. */
  ghost predicate NameOk(x: string) {
    0 < |x| < 49 && 97 <= x[0] as int <= 122 && forall i | 0 <= i < |x| :: InName(x[i])
  }

  ghost predicate InName(c: char) {
    97 <= c as int <= 122 || 48 <= c as int <= 57 || c in {'_', '-'}
  }

  lemma NameIsIdentifier(x: string)
    ensures Identifier(x) <==> NameOk(x)
  {
    forall i | 0 <= i < |x| ensures x[i] in x {}
    if NameOk(x) {
      forall c | c in x ensures 'a' <= c <= 'z' || '0' <= c <= '9' || c == '_' || c == '-' {
        var i :| 0 <= i < |x| && x[i] == c;
        assert InName(x[i]);
      }
    }
  }

  /** All different. */
  ghost predicate Once(xs: seq<string>) {
    forall i, j | 0 <= i < |xs| && 0 <= j < |xs| && xs[i] == xs[j] :: i == j
  }

  lemma OnceIsDistinct(xs: seq<string>)
    ensures Once(xs) <==> forall i, j | 0 <= i < j < |xs| :: xs[i] != xs[j]
  {
  }

  /** One to a hundred different paths, none of them in a control directory. */
  ghost predicate ListOk(paths: seq<Path>) {
    0 < |paths| < 101 && Once(paths) &&
    forall p | p in paths :: Split(p)[0] != ".git" && Split(p)[0] != ".codex" && Split(p)[0] != ".agents"
  }

  /** A task is acceptable with a name, texts within their limits, at least one criterion, a list of paths in order,
      which for a writer does not have the root, and dependencies that are named once. */
  lemma WhenAcceptable(t: Task)
    ensures TaskOk(t) <==>
              && NameOk(t.id) && ListOk(t.paths) && Once(t.dependsOn)
              && (forall p | p in t.paths :: p != "." || t.kind != Implement)
              && match t.brief
                 case Lens(_, _) => true
                 case Given(description, _, doneWhen, why) =>
                   && TextOk(description, 12000) && TextOk(why, 3000) && 0 < |doneWhen|
                   && forall i | 0 <= i < |doneWhen| :: TextOk(doneWhen[i], 3000)
  {
    NameIsIdentifier(t.id);
    OnceIsDistinct(t.paths);
    OnceIsDistinct(t.dependsOn);
  }

  /** The same work: the same lens, or descriptions with the same words. */
  ghost predicate SameWork(t: Task, u: Task) {
    match (t.brief, u.brief)
    case (Lens(_, _), Lens(_, _)) => t.brief == u.brief
    case (Given(_, words, _, _), Given(_, others, _, _)) => words == others
    case _ => false
  }

  /** A plan is accepted if and only if it has at most 32 acceptable tasks, no two of a name or with the same work,
      which depend on tasks of the plan, and not on each other in a cycle. */
  lemma WhenAdmissible(tasks: seq<Task>)
    ensures Admissible(tasks) <==>
              && |tasks| < 33 && (forall t | t in tasks :: TaskOk(t))
              && (forall i, j | 0 <= i < |tasks| && 0 <= j < |tasks| && tasks[i].id == tasks[j].id :: i == j)
              && (forall i, j | 0 <= i < |tasks| && 0 <= j < |tasks| && SameWork(tasks[i], tasks[j]) :: i == j)
              && (forall i, d | 0 <= i < |tasks| && d in tasks[i].dependsOn :: HasTask(tasks, d))
              && (DistinctTasks(tasks) ==> Acyclic(DependenciesOf(tasks)))
  {
    forall i, j | 0 <= i < |tasks| && 0 <= j < |tasks|
      ensures SameWork(tasks[i], tasks[j]) <==> Wording(tasks[i].brief) == Wording(tasks[j].brief)
    {
    }
    assert DistinctTasks(tasks) <==>
           forall i, j | 0 <= i < |tasks| && 0 <= j < |tasks| && tasks[i].id == tasks[j].id :: i == j;
    assert DistinctWork(tasks) <==>
           forall i, j | 0 <= i < |tasks| && 0 <= j < |tasks| && SameWork(tasks[i], tasks[j]) :: i == j;
    if DistinctTasks(tasks) {
      ClosedNames(tasks);
    }
  }

  /** Some task of the plan has this name. */
  ghost predicate HasTask(tasks: seq<Task>, name: string) {
    exists j :: 0 <= j < |tasks| && tasks[j].id == name
  }

  lemma ClosedNames(tasks: seq<Task>)
    requires DistinctTasks(tasks)
    ensures Closed(DependenciesOf(tasks)) <==>
            forall i, d | 0 <= i < |tasks| && d in tasks[i].dependsOn :: HasTask(tasks, d)
  {
    var g := DependenciesOf(tasks);
    assert forall d :: d in g <==> HasTask(tasks, d);
    forall i | 0 <= i < |tasks| ensures tasks[i].id in g && g[tasks[i].id] == tasks[i].dependsOn {
      assert HasTask(tasks, tasks[i].id);
    }
  }
}
