/** The Evidence object: its tables and the methods that change them. */
module Evidence {
  import opened Wrappers
  import opened Ledger
  import opened LedgerTruth
  import opened Batch

  datatype Checked = Checked(id: string, status: Status, reused: bool)

  class Evidence {
    var task: Option<Task>
    var attempts: seq<Attempt>
    var finish: Option<Claim>
    ghost var history: seq<Command>

    function Abs(): State
      reads this
    {
      State(task, attempts, finish)
    }

    /** The tables are what the commands issued so far make of an empty ledger. */
    ghost predicate Valid()
      reads this
    {
      Abs() == Run(EMPTY, history)
    }

    constructor ()
      ensures Valid() && Abs() == EMPTY
    {
      task, attempts, finish, history := None, [], None, [];
    }

    method Begin(t: Task) returns (changed: bool)
      requires Valid()
      modifies this
      ensures Valid() && Abs() == Apply(old(Abs()), Command.Begin(t))
      ensures changed <==> MayBegin(old(Abs()), t)
    {
      Record(Command.Begin(t));
      if !TaskOk(t) || task == Some(t) || AnyRunning(Abs()) {
        return false;
      }
      task, finish := Some(t), None;
      changed := true;
    }

    /** The first transaction of run: withdraw the claim, then insert the attempt. */
    method StartRun(id: string, expected: Option<Task>) returns (seqNo: Option<nat>)
      requires Valid()
      modifies this
      ensures Valid() && Abs() == Apply(old(Abs()), Command.StartRun(id, expected))
      ensures seqNo == if MayStart(old(Abs()), id, expected) then Some(|old(attempts)|) else None
    {
      Record(Command.StartRun(id, expected));
      if (expected.Some? && task != expected) || task.None? || FindCheck(task.value.checks, id).None? {
        return None;
      }
      if exists i :: 0 <= i < |attempts| && attempts[i].check == id && attempts[i].status == RUNNING {
        return None;
      }
      finish := None;
      var spec := FindCheck(task.value.checks, id).value;
      attempts := attempts + [Attempt(id, task.value, spec, RUNNING, None, None, None, false)];
      seqNo := Some(|attempts| - 1);
    }

    /** The second transaction of run. */
    method EndRun(seqNo: nat, before: Option<Context>, code: Option<int>, after: Option<Context>)
      requires Valid() && seqNo < |attempts| && attempts[seqNo].status == RUNNING
      modifies this
      ensures Valid() && Abs() == Apply(old(Abs()), Command.EndRun(seqNo, before, code, after))
    {
      Record(Command.EndRun(seqNo, before, code, after));
      attempts := attempts[seqNo := Ended(attempts[seqNo], before, code, after)];
    }

    method Finish(kind: Kind, env: Env) returns (ok: bool)
      requires Valid()
      modifies this
      ensures Valid() && Abs() == Apply(old(Abs()), Command.Finish(kind, env))
      ensures ok <==> (kind == Tested ==> ProvenNow(old(Abs()), env)) &&
                      (kind == Analysis ==> forall a | a in old(attempts) :: a.status != RUNNING)
      ensures ok ==> ShownClaim(Abs(), env) == Some(Claim(kind, true, task, |attempts|))
      ensures !ok ==> Abs() == old(Abs())
    {
      Record(Command.Finish(kind, env));
      PassedIsProven(Abs(), env);
      NoneRuns(Abs());
      if (kind == Tested && !Passed(Abs(), env)) || (kind == Analysis && AnyRunning(Abs())) {
        return false;
      }
      finish := Some(Claim(kind, true, task, |attempts|));
      ok := true;
    }

    /** run_all while nothing else touches ledger or workspace: passed is the verdict a forced batch would have
        given. */
    method RunAllChecks(host: Host, reuse: bool) returns (results: seq<Checked>, passed: bool)
      requires Valid() && Quiet(Abs(), host)
      modifies this
      ensures Valid() && Abs() == RunAll(old(Abs()), host, reuse, old(task.value.checks))
      ensures passed == ProvenNow(Abs(), host.env)
      ensures passed <==> old(task).value.checks != [] &&
                          (forall s | s in old(task).value.checks :: WouldPass(host, old(task).value, s)) &&
                          forall r | 0 <= r < |old(task).value.requirements| :: HasCheck(old(task).value, r)
      ensures passed == ProvenNow(RunAll(old(Abs()), host, false, old(task.value.checks)), host.env)
      ensures passed ==> |results| == |old(task.value.checks)| && forall r | r in results :: r.status == PASS
    {
      BatchCovers(history, host, reuse);
      BatchCovers(history, host, false);
      ghost var forced := RunAll(Abs(), host, false, task.value.checks);
      var specs := task.value.checks;
      var stopped := false;
      results := [];
      assert specs[0..] == specs;
      for i := 0 to |specs|
        invariant Valid() && Quiet(Abs(), host) && task == old(task) && specs == task.value.checks
        invariant RunAll(old(Abs()), host, reuse, specs) ==
                  if stopped then Abs() else RunAll(Abs(), host, reuse, specs[i..])
        invariant !stopped ==> |results| == i && forall r | r in results :: r.status == PASS
        invariant stopped ==> exists s :: s in specs && Report(Abs(), host.env, task.value, s) != PASS
      {
        if !stopped {
          assert specs[i..][0] == specs[i] && specs[i..][1..] == specs[i + 1..];
          if reuse && MayReuse(Abs(), host, specs[i]) {
            results := results + [Checked(specs[i].id, PASS, true)];
          } else {
            var status := RunCheck(host, specs[i]);
            results := results + [Checked(specs[i].id, status, false)];
            stopped := status != PASS;
          }
        }
      }
      assert specs[|specs|..] == [];
      PassedIsProven(Abs(), host.env);
      PassedIsProven(forced, host.env);
      passed := Passed(Abs(), host.env);
    }

    /** One run of a batch: both transactions with the contexts and the exit code of the host. */
    method RunCheck(host: Host, spec: Spec) returns (status: Status)
      requires Valid() && Quiet(Abs(), host) && spec in task.value.checks
      modifies this
      ensures Valid() && Quiet(Abs(), host) && task == old(task) && Abs() == RunOne(old(Abs()), host, spec)
      ensures status == attempts[|old(attempts)|].status
      ensures status == PASS <==> Report(Abs(), host.env, task.value, spec) == PASS
    {
      ghost var was := Abs();
      RunOneKeepsQuiet(was, host, spec);
      RunOneDecides(was, host, spec);
      FoundAgain(task.value.checks, spec);
      var seqNo := StartRun(spec.id, task);
      var before := ContextOf(host.env, task.value, spec);
      var code := if before.Some? then Some(host.exit(before.value)) else None;
      EndRun(seqNo.value, before, code, before);
      assert Abs() == RunOne(was, host, spec);
      status := attempts[seqNo.value].status;
    }

    ghost method Record(c: Command)
      modifies this`history
      ensures history == old(history) + [c]
      ensures old(Valid()) ==> Run(EMPTY, history) == Apply(Abs(), c)
    {
      RunAppend(EMPTY, history, [c]);
      assert [c][1..] == [];
      history := history + [c];
    }
  }

  lemma NoneRuns(l: State)
    ensures !AnyRunning(l) <==> forall a | a in l.attempts :: a.status != RUNNING
  {
  }
}
