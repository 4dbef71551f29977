/** What every reachable ledger satisfies and what a valid tested claim therefore certifies. */
module LedgerTruth {
  import opened Files
  import Paths
  import opened Wrappers
  import opened Ledger

  ghost predicate Inv(l: State) {
    && (forall i, j | 0 <= i < j < |l.attempts| && l.attempts[i].status == RUNNING && l.attempts[j].status == RUNNING ::
          l.attempts[i].check != l.attempts[j].check)
    && (forall i | 0 <= i < |l.attempts| && l.attempts[i].status == RUNNING :: Some(l.attempts[i].task) == l.task)
    && (forall i | 0 <= i < |l.attempts| :: WellRecorded(l.attempts[i]))
    && (l.finish.Some? ==> l.finish.value.at == |l.attempts|)
    && (l.task.Some? ==> TaskOk(l.task.value))
  }

  /** A passing attempt ran to the end in one unchanged context; every attempt ran a check of its own task. */
  ghost predicate WellRecorded(a: Attempt) {
    && a.spec in a.task.checks && a.spec.id == a.check
    && (a.status == RUNNING ==> a.before.None? && a.code.None? && !a.failed)
    && (a.status == PASS ==> a.code == Some(0) && !a.failed && a.before.Some? && a.before == a.after)
  }

  lemma ApplyKeepsInv(l: State, c: Command)
    requires Inv(l)
    ensures Inv(Apply(l, c))
  {
    match c
    case StartRun(id, expected) =>
      if MayStart(l, id, expected) {
        assert WellRecorded(Started(l, id).attempts[|l.attempts|]);
      }
    case EndRun(i, before, code, after) =>
      if Apply(l, c) != l {
        assert WellRecorded(l.attempts[i]);
        assert WellRecorded(Ended(l.attempts[i], before, code, after));
      }
    case _ =>
  }

  lemma {:induction false} RunKeepsInv(l: State, cs: seq<Command>)
    requires Inv(l)
    ensures Inv(Run(l, cs))
    decreases |cs|
  {
    if cs != [] {
      ApplyKeepsInv(l, cs[0]);
      RunKeepsInv(Apply(l, cs[0]), cs[1..]);
    }
  }

  lemma {:induction false} RunAppend(l: State, a: seq<Command>, b: seq<Command>)
    ensures Run(l, a + b) == Run(Run(l, a), b)
    decreases |a|
  {
    if a == [] {
      assert [] + b == b;
    } else {
      assert (a + b)[0] == a[0] && (a + b)[1..] == a[1..] + b;
      RunAppend(Apply(l, a[0]), a[1..], b);
    }
  }

  lemma ReachableLedger(cs: seq<Command>)
    ensures Inv(Run(EMPTY, cs))
  {
    RunKeepsInv(EMPTY, cs);
  }

  /** A tested claim shown as valid: nothing was started since it was made, nothing runs, and every check's deciding
      attempt passed in exactly the context that is present now. */
  lemma ValidClaimCertifies(cs: seq<Command>, env: Env, s: Spec)
    requires var l := Run(EMPTY, cs);
             var c := ShownClaim(l, env);
             c.Some? && c.value.valid && c.value.kind == Tested
    requires Run(EMPTY, cs).task.Some? && s in Run(EMPTY, cs).task.value.checks
    ensures var l := Run(EMPTY, cs);
            && l.finish.value.at == |l.attempts| && !AnyRunning(l)
            && var i := Deciding(l.attempts, l.task.value, s);
               i.Some? &&
               var a := l.attempts[i.value];
               var now := ContextOf(env, l.task.value, s);
               a.status == PASS && now.Some? && a.before == now && a.after == now && a.code == Some(0)
  {
    ReachableLedger(cs);
    var l := Run(EMPTY, cs);
    assert Passed(l, env);
    assert Report(l, env, l.task.value, s) == PASS;
  }

  // ---------- what passing means ----------

  /** The deciding attempt of the check passed, in exactly the context that is present now, with its log intact. */
  ghost predicate PassedNow(l: State, env: Env, task: Task, s: Spec) {
    exists i :: 0 <= i < |l.attempts| && Decides(l, task, s, i) && PassedAt(l.attempts[i], env, task, s, i)
  }

  ghost predicate PassedAt(a: Attempt, env: Env, task: Task, s: Spec, i: nat) {
    var now := ContextOf(env, task, s);
    && a.status == PASS && a.code == Some(0) && !a.failed && i !in env.broken
    && now.Some? && a.before == now && a.after == now && (a.task == task ==> a.spec == s)
  }

  /** Attempt i is the newest of the check altogether, of another task but for the same execution of a reusable check,
      or else the newest of this task. */
  ghost predicate Decides(l: State, task: Task, s: Spec, i: nat) {
    && i < |l.attempts| && l.attempts[i].check == s.id
    && if Replaces(l, task, s, i) then NewestAt(l, s, i)
       else l.attempts[i].task == task && (forall j | i < j < |l.attempts| :: !OfTask(l, task, s, j)) &&
            forall j | i < j < |l.attempts| && NewestAt(l, s, j) :: !Replaces(l, task, s, j)
  }

  ghost predicate NewestAt(l: State, s: Spec, i: nat) {
    i < |l.attempts| && l.attempts[i].check == s.id && forall j | i < j < |l.attempts| :: l.attempts[j].check != s.id
  }

  ghost predicate OfTask(l: State, task: Task, s: Spec, i: nat) {
    i < |l.attempts| && l.attempts[i].check == s.id && l.attempts[i].task == task
  }

  ghost predicate Replaces(l: State, task: Task, s: Spec, i: nat) {
    i < |l.attempts| && s.reusable && l.attempts[i].task != task && l.attempts[i].before.Some? &&
    l.attempts[i].before.value.execution == s.execution
  }

  lemma {:induction false} NewestIsLast(attempts: seq<Attempt>, check: string, task: Option<Task>)
    ensures var i := Newest(attempts, check, task);
            && (i.Some? ==> forall j | i.value < j < |attempts| ::
                  !(attempts[j].check == check && (task.None? || attempts[j].task == task.value)))
            && (i.None? ==> forall j | 0 <= j < |attempts| ::
                  !(attempts[j].check == check && (task.None? || attempts[j].task == task.value)))
    decreases |attempts|
  {
    if attempts != [] {
      var last := |attempts| - 1;
      NewestIsLast(attempts[..last], check, task);
      assert forall j | 0 <= j < last :: attempts[..last][j] == attempts[j];
    }
  }

  lemma DecidingDecides(l: State, task: Task, s: Spec, i: nat)
    requires i < |l.attempts|
    ensures Decides(l, task, s, i) <==> Deciding(l.attempts, task, s) == Some(i)
  {
    NewestIsLast(l.attempts, s.id, None);
    NewestIsLast(l.attempts, s.id, Some(task));
    var latest, own := Newest(l.attempts, s.id, None), Newest(l.attempts, s.id, Some(task));
    assert forall j: nat :: NewestAt(l, s, j) <==> latest == Some(j) by {
      forall j: nat ensures NewestAt(l, s, j) <==> latest == Some(j) {
        if latest.Some? && NewestAt(l, s, j) {
          assert j <= latest.value <= j;
        }
      }
    }
    if latest.Some? && Replaces(l, task, s, latest.value) {
      assert StandsIn(l.attempts[latest.value], task, s);
      assert NewestAt(l, s, latest.value);
      assert i != latest.value && l.attempts[i].check == s.id ==> i < latest.value;
    } else if own.Some? {
      assert Decides(l, task, s, own.value);
      assert OfTask(l, task, s, own.value);
      assert OfTask(l, task, s, i) ==> i <= own.value;
    } else {
      assert !OfTask(l, task, s, i);
    }
  }

  lemma ReportedPass(l: State, env: Env, task: Task, s: Spec)
    ensures Report(l, env, task, s) == PASS <==> PassedNow(l, env, task, s)
  {
    var d := Deciding(l.attempts, task, s);
    forall i | 0 <= i < |l.attempts| ensures Decides(l, task, s, i) <==> d == Some(i) {
      DecidingDecides(l, task, s, i);
    }
  }

  /** The task has checks, none is running, each passed now, and each requirement is covered by one of them. */
  ghost predicate ProvenNow(l: State, env: Env) {
    && l.task.Some? && l.task.value.checks != []
    && (forall i | 0 <= i < |l.attempts| :: l.attempts[i].status != RUNNING)
    && (forall s | s in l.task.value.checks :: PassedNow(l, env, l.task.value, s))
    && (forall r | 0 <= r < |l.task.value.requirements| :: HasCheck(l.task.value, r))
  }

  /** Some check of the task lists the requirement. */
  ghost predicate HasCheck(task: Task, r: nat) {
    exists s :: s in task.checks && r in s.covers
  }

  /** That is what it means that the ledger shows passed. */
  lemma PassedIsProven(l: State, env: Env)
    ensures Passed(l, env) <==> ProvenNow(l, env)
  {
    if l.task.Some? {
      forall s | s in l.task.value.checks
        ensures Report(l, env, l.task.value, s) == PASS <==> PassedNow(l, env, l.task.value, s)
      {
        ReportedPass(l, env, l.task.value, s);
      }
      forall r: nat ensures HasCheck(l.task.value, r) <==> Covered(l.task.value, r) {
      }
    }
  }

  /** A tested claim shown as valid covers every requirement: some check of the task lists it, and the attempt that
      decides that check passed in the context of now. */
  lemma ValidClaimCovers(cs: seq<Command>, env: Env, r: nat)
    requires var l := Run(EMPTY, cs);
             var c := ShownClaim(l, env);
             c.Some? && c.value.valid && c.value.kind == Tested
    requires Run(EMPTY, cs).task.Some? && r < |Run(EMPTY, cs).task.value.requirements|
    ensures var l := Run(EMPTY, cs);
            exists s :: s in l.task.value.checks && r in s.covers && PassedNow(l, env, l.task.value, s)
  {
    var l := Run(EMPTY, cs);
    PassedIsProven(l, env);
    assert HasCheck(l.task.value, r);
  }

  /** A tested claim is taken exactly on a proven ledger, an analysis only while nothing runs; it is shown valid as long
      as the task is the same and, if it is tested, the ledger still proves it. */
  lemma ClaimIsTaken(l: State, kind: Kind, env: Env)
    ensures var r := Apply(l, Finish(kind, env));
            r == if (kind == Tested && !ProvenNow(l, env)) ||
                    (kind == Analysis && exists i :: 0 <= i < |l.attempts| && l.attempts[i].status == RUNNING)
                 then l else l.(finish := Some(Claim(kind, true, l.task, |l.attempts|)))
  {
    PassedIsProven(l, env);
  }

  lemma ClaimIsShown(l: State, env: Env)
    ensures var c := ShownClaim(l, env);
            && (c.Some? <==> l.finish.Some?)
            && (c.Some? ==> c.value == l.finish.value.(valid := c.value.valid))
            && (c.Some? && l.finish.value.valid ==>
                  (c.value.valid <==> l.finish.value.task == l.task &&
                                      (l.finish.value.kind == Tested ==> ProvenNow(l, env))))
  {
    PassedIsProven(l, env);
  }

  // ---------- attempts ----------

  /** A check starts unless one of the same name runs, or the task is not the one expected; a start withdraws the
      claim. */
  lemma StartIsGranted(l: State, id: string, expected: Option<Task>)
    ensures var r := Apply(l, StartRun(id, expected));
            if && l.task.Some? && (exists s :: s in l.task.value.checks && s.id == id)
               && (expected.Some? ==> expected == l.task)
               && (forall i | 0 <= i < |l.attempts| && l.attempts[i].check == id :: l.attempts[i].status != RUNNING)
            then exists s :: s in l.task.value.checks && s.id == id &&
                   r == l.(attempts := l.attempts + [Attempt(id, l.task.value, s, RUNNING, None, None, None, false)],
                           finish := None)
            else r == l
  {
  }

  /** A running attempt passes with exit code 0 in an unchanged context, goes stale with 0 in a changed one, fails with
      any other code, and is an error if a context could not be taken or the process was not run. */
  lemma EndIsRecorded(l: State, i: nat, before: Option<Context>, code: Option<int>, after: Option<Context>)
    requires i < |l.attempts| && l.attempts[i].status == RUNNING
    ensures var r := Apply(l, EndRun(i, before, code, after));
            && |r.attempts| == |l.attempts| && r == l.(attempts := l.attempts[i := r.attempts[i]])
            && var a := r.attempts[i];
               && a.check == l.attempts[i].check && a.task == l.attempts[i].task && a.spec == l.attempts[i].spec
               && (a.status == PASS <==> before.Some? && after.Some? && code == Some(0) && before == after)
               && (a.status == STALE <==> before.Some? && after.Some? && code == Some(0) && before != after)
               && (a.status == FAIL <==> before.Some? && after.Some? && code.Some? && code != Some(0))
               && (a.status == ERROR <==> before.None? || after.None? || code.None?)
               && (if a.status == ERROR
                   then a == l.attempts[i].(status := ERROR, failed := true,
                                            before := if before.Some? then before else l.attempts[i].before,
                                            code := if before.Some? && code.Some? then code else l.attempts[i].code)
                   else a == l.attempts[i].(status := a.status, before := before, code := code, after := after))
  {
  }

  lemma EndIsRefused(l: State, i: nat, before: Option<Context>, code: Option<int>, after: Option<Context>)
    requires i < |l.attempts| ==> l.attempts[i].status != RUNNING
    ensures Apply(l, EndRun(i, before, code, after)) == l
  {
  }

  /** A definition is taken if it is new, nothing runs, its requirements differ and its checks are named apart and cover
      requirements that exist; it withdraws the claim and keeps the attempts. */
  lemma BeginIsGranted(l: State, t: Task)
    ensures var r := Apply(l, Begin(t));
            if && l.task != Some(t) && (forall i | 0 <= i < |l.attempts| :: l.attempts[i].status != RUNNING)
               && t.requirements != []
               && (forall i, j | 0 <= i < j < |t.requirements| :: t.requirements[i] != t.requirements[j])
               && (forall i, j | 0 <= i < j < |t.checks| :: t.checks[i].id != t.checks[j].id)
               && (forall s | s in t.checks :: s.covers != {} && forall n | n in s.covers :: n < |t.requirements|)
            then r == State(Some(t), l.attempts, None) else r == l
  {
  }

  // ---------- contexts ----------

  /** Some directory below d on the way to f is of those a walk passes over. */
  ghost predicate Hidden(d: Paths.Path, f: Paths.Path) {
    exists above, name, below :: HiddenBy(d, f, above, name, below)
  }

  ghost predicate HiddenBy(d: Paths.Path, f: Paths.Path, above: Paths.Parts, name: string, below: Paths.Parts) {
    && Paths.Split(f) == above + [name] + below && |above| >= |Paths.Split(d)| && below != []
    && name in {".git", "__pycache__", ".pytest_cache", ".mypy_cache", ".ruff_cache"}
  }

  lemma HiddenIsPassedOver(d: Paths.Path, f: Paths.Path)
    ensures Hidden(d, f) <==> PassedOver(d, f)
  {
    var parts := Paths.Split(f);
    if PassedOver(d, f) {
      var k :| |Paths.Split(d)| <= k < |parts| - 1 && parts[k] in SKIPPED;
      assert parts == parts[..k] + [parts[k]] + parts[k + 1..];
      assert HiddenBy(d, f, parts[..k], parts[k], parts[k + 1..]);
    }
    if Hidden(d, f) {
      var above, name, below :| HiddenBy(d, f, above, name, below);
      assert parts[|above|] == name;
    }
  }

  /** A context can be taken if the check runs on the machine, depends on something, everything it depends on exists and
      nothing that must be absent does; it holds the files the check depends on, as they are. */
  lemma ContextIsExact(env: Env, task: Task, s: Spec)
    ensures var c := ContextOf(env, task, s);
            && (c.Some? <==>
                  && env.machine(s).Some? && s.execution.dependencies != {}
                  && (forall d | d in s.execution.dependencies :: exists f :: f in env.files && Covers(d, f))
                  && (forall p | p in s.execution.absent :: forall f | f in env.files :: !Covers(p, f)))
            && (c.Some? ==>
                  && c.value.execution == s.execution && c.value.requirements == task.requirements
                  && Some(c.value.machine) == env.machine(s)
                  && (forall f :: f in c.value.files <==>
                        f in env.files &&
                        exists d :: d in s.execution.dependencies && Covers(d, f) && !Hidden(d, f))
                  && (forall f | f in c.value.files :: c.value.files[f] == env.files[f]))
  {
    forall d, f ensures Hidden(d, f) <==> PassedOver(d, f) {
      HiddenIsPassedOver(d, f);
    }
  }
}
