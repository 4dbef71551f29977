/** evidence.py as a value: the task, its append-only attempts and the completion claim. A task hash is the task
    itself. */
module Ledger {
  import opened Files
  import opened Paths
  import opened Wrappers

  const SKIPPED := {".git", "__pycache__", ".pytest_cache", ".mypy_cache", ".ruff_cache"}

  /** The hashed fields of a check; rest stands for cwd, identity and environment_keys. */
  datatype Execution = Execution(argv: seq<string>, dependencies: set<Path>, absent: set<Path>, rest: string)

  datatype Spec = Spec(id: string, reusable: bool, covers: set<nat>, execution: Execution, purpose: string)

  datatype Task = Task(id: string, design: string, requirements: seq<string>, checks: seq<Spec>)

  /** machine stands for the executable, the environment, the platform and the workspace's own path. */
  datatype Context = Context(execution: Execution, requirements: seq<string>, files: Files, machine: string)

  datatype Status = RUNNING | PASS | FAIL | STALE | ERROR | NOT_RUN

  datatype Attempt = Attempt(check: string, task: Task, spec: Spec, status: Status, before: Option<Context>,
                             after: Option<Context>, code: Option<int>, failed: bool)

  datatype Kind = Tested | Analysis | Partial | Blocked

  /** at counts the attempts started before the claim, in place of a clock. */
  datatype Claim = Claim(kind: Kind, valid: bool, task: Option<Task>, at: nat)

  datatype State = State(task: Option<Task>, attempts: seq<Attempt>, finish: Option<Claim>)

  /** The workspace, the machine as a check sees it (None: it cannot be run), and the attempts whose logs no longer
      match. */
  datatype Env = Env(files: Files, machine: Spec -> Option<string>, broken: set<nat>)

  /** A directory walk passes over cache and control directories below the dependency. */
  predicate PassedOver(d: Path, f: Path) {
    exists k :: |Split(d)| <= k < |Split(f)| - 1 && Split(f)[k] in SKIPPED
  }

  predicate Tracked(dependencies: set<Path>, f: Path) {
    exists d :: d in dependencies && Covers(d, f) && !PassedOver(d, f)
  }

  /** util.snapshot: the files a check depends on. */
  function Observed(fs: Files, dependencies: set<Path>): Files {
    map f | f in fs && Tracked(dependencies, f) :: fs[f]
  }

  /** Evidence._context: every dependency exists, nothing that must be absent does. */
  function ContextOf(env: Env, task: Task, spec: Spec): Option<Context> {
    var x := spec.execution;
    match env.machine(spec)
    case None => None
    case Some(machine) =>
      if (exists p :: p in x.absent && Present(env.files, p)) || x.dependencies == {} ||
         (exists d :: d in x.dependencies && !Present(env.files, d))
      then None
      else Some(Context(x, task.requirements, Observed(env.files, x.dependencies), machine))
  }

  // ---------- the verdict on one check ----------

  /** The newest attempt of a check, of one task only or of any. */
  function Newest(attempts: seq<Attempt>, check: string, task: Option<Task>): (i: Option<nat>)
    ensures i.Some? ==> i.value < |attempts| && attempts[i.value].check == check &&
                        (task.Some? ==> attempts[i.value].task == task.value)
  {
    if attempts == [] then None
    else
      var last := |attempts| - 1;
      if attempts[last].check == check && (task.None? || attempts[last].task == task.value) then Some(last)
      else Newest(attempts[..last], check, task)
  }

  /** Whether another task's newest attempt stands in: only for a reusable check with the same execution. */
  predicate StandsIn(a: Attempt, task: Task, spec: Spec) {
    spec.reusable && a.task != task && a.before.Some? && a.before.value.execution == spec.execution
  }

  function Deciding(attempts: seq<Attempt>, task: Task, spec: Spec): (i: Option<nat>)
    ensures i.Some? ==> i.value < |attempts| && attempts[i.value].check == spec.id
  {
    var latest := Newest(attempts, spec.id, None);
    if latest.Some? && StandsIn(attempts[latest.value], task, spec) then latest
    else Newest(attempts, spec.id, Some(task))
  }

  predicate Holds(a: Attempt, env: Env, task: Task, spec: Spec, seqNo: nat) {
    var now := ContextOf(env, task, spec);
    && a.code == Some(0) && !a.failed
    && (a.task == task ==> a.spec == spec)
    && now.Some? && a.before == now && a.after == now
    && seqNo !in env.broken
  }

  function Report(l: State, env: Env, task: Task, spec: Spec): Status {
    match Deciding(l.attempts, task, spec)
    case None => NOT_RUN
    case Some(i) =>
      var a := l.attempts[i];
      if a.status == PASS && !Holds(a, env, task, spec, i) then STALE else a.status
  }

  predicate AnyRunning(l: State) {
    exists i :: 0 <= i < |l.attempts| && l.attempts[i].status == RUNNING
  }

  predicate Passed(l: State, env: Env) {
    && l.task.Some?
    && l.task.value.checks != []
    && !AnyRunning(l)
    && (forall s | s in l.task.value.checks :: Report(l, env, l.task.value, s) == PASS)
    && (forall r | 0 <= r < |l.task.value.requirements| :: Covered(l.task.value, r))
  }

  predicate Covered(t: Task, requirement: nat) {
    exists s :: s in t.checks && requirement in s.covers
  }

  // ---------- writing ----------

  predicate DistinctIds(checks: seq<Spec>) {
    forall i, j | 0 <= i < j < |checks| :: checks[i].id != checks[j].id
  }

  /** The refusals of begin that concern more than the shape of single fields. */
  predicate TaskOk(t: Task) {
    && t.requirements != [] && DistinctIds(t.checks)
    && (forall i, j | 0 <= i < j < |t.requirements| :: t.requirements[i] != t.requirements[j])
    && (forall s, r | s in t.checks && r in s.covers :: r < |t.requirements|)
    && (forall s | s in t.checks :: s.covers != {})
  }

  function FindCheck(checks: seq<Spec>, id: string): (s: Option<Spec>)
    ensures s.Some? ==> s.value in checks && s.value.id == id
    ensures s.None? ==> forall c | c in checks :: c.id != id
  {
    if checks == [] then None else if checks[0].id == id then Some(checks[0]) else FindCheck(checks[1..], id)
  }

  predicate MayStart(l: State, id: string, expected: Option<Task>) {
    && l.task.Some? && FindCheck(l.task.value.checks, id).Some?
    && (expected.Some? ==> l.task == expected)
    && forall i | 0 <= i < |l.attempts| :: !(l.attempts[i].check == id && l.attempts[i].status == RUNNING)
  }

  function Started(l: State, id: string): State
    requires l.task.Some? && FindCheck(l.task.value.checks, id).Some?
  {
    var spec := FindCheck(l.task.value.checks, id).value;
    l.(attempts := l.attempts + [Attempt(id, l.task.value, spec, RUNNING, None, None, None, false)], finish := None)
  }

  /** How an attempt ends: before and after are the contexts taken, code the exit code if the process was run. */
  function Ended(a: Attempt, before: Option<Context>, code: Option<int>, after: Option<Context>): Attempt {
    if before.None? then a.(status := ERROR, failed := true)
    else if code.None? then a.(status := ERROR, before := before, failed := true)
    else if after.None? then a.(status := ERROR, before := before, code := code, failed := true)
    else a.(status := if code == Some(0) && before == after then PASS else if code != Some(0) then FAIL else STALE,
            before := before, after := after, code := code)
  }

  datatype Command =
    | Begin(task: Task)
    | StartRun(id: string, expected: Option<Task>)
    | EndRun(seqNo: nat, before: Option<Context>, code: Option<int>, after: Option<Context>)
    | Finish(kind: Kind, env: Env)

  predicate MayBegin(l: State, t: Task) {
    TaskOk(t) && l.task != Some(t) && !AnyRunning(l)
  }

  predicate MayFinish(l: State, kind: Kind, env: Env) {
    (kind == Tested ==> Passed(l, env)) && (kind == Analysis ==> !AnyRunning(l))
  }

  function Apply(l: State, c: Command): State {
    match c
    case Begin(t) => if MayBegin(l, t) then State(Some(t), l.attempts, None) else l
    case StartRun(id, expected) => if MayStart(l, id, expected) then Started(l, id) else l
    case EndRun(i, before, code, after) =>
      if i < |l.attempts| && l.attempts[i].status == RUNNING
      then l.(attempts := l.attempts[i := Ended(l.attempts[i], before, code, after)]) else l
    case Finish(kind, env) =>
      if MayFinish(l, kind, env) then l.(finish := Some(Claim(kind, true, l.task, |l.attempts|))) else l
  }

  function Run(l: State, cs: seq<Command>): State
    decreases |cs|
  {
    if cs == [] then l else Run(Apply(l, cs[0]), cs[1..])
  }

  const EMPTY: State := State(None, [], None)

  /** What status shows of the stored claim. */
  function ShownClaim(l: State, env: Env): Option<Claim> {
    match l.finish
    case None => None
    case Some(c) => Some(if c.task != l.task || (c.kind == Tested && !Passed(l, env)) then c.(valid := false) else c)
  }
}
