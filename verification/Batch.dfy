/** run_all: a batch that skips what the ledger already proves reaches the verdict of one that repeats everything. */
module Batch {
  import opened Wrappers
  import opened Ledger
  import opened LedgerTruth

  /** The machine during one batch: contexts stay as env has them, and an exit code depends on the context only. */
  datatype Host = Host(env: Env, exit: Context -> int)

  /** run(id) without interference. */
  function RunOne(l: State, host: Host, spec: Spec): State
    requires l.task.Some?
  {
    var c := ContextOf(host.env, l.task.value, spec);
    var a := Attempt(spec.id, l.task.value, spec, RUNNING, None, None, None, false);
    l.(attempts := l.attempts + [Ended(a, c, if c.Some? then Some(host.exit(c.value)) else None, c)], finish := None)
  }

  predicate MayReuse(l: State, host: Host, spec: Spec)
    requires l.task.Some?
  {
    spec.reusable && !AnyRunning(l) && Report(l, host.env, l.task.value, spec) == PASS
  }

  function RunAll(l: State, host: Host, reuse: bool, specs: seq<Spec>): State
    requires l.task.Some?
    decreases |specs|
  {
    if specs == [] then l
    else if reuse && MayReuse(l, host, specs[0]) then RunAll(l, host, reuse, specs[1..])
    else
      var r := RunOne(l, host, specs[0]);
      if r.attempts[|l.attempts|].status != PASS then r else RunAll(r, host, reuse, specs[1..])
  }

  /** RunOne is the start and the end of one attempt. */
  lemma RunOneIsTwoCommands(l: State, host: Host, spec: Spec)
    requires Inv(l) && l.task.Some? && spec in l.task.value.checks && !AnyRunning(l)
    ensures var c := ContextOf(host.env, l.task.value, spec);
            RunOne(l, host, spec) == Run(l, [StartRun(spec.id, l.task),
              EndRun(|l.attempts|, c, if c.Some? then Some(host.exit(c.value)) else None, c)])
  {
    FoundAgain(l.task.value.checks, spec);
    var c := ContextOf(host.env, l.task.value, spec);
    var code := if c.Some? then Some(host.exit(c.value)) else None;
    var start, end := StartRun(spec.id, l.task), EndRun(|l.attempts|, c, code, c);
    assert Apply(l, start) == Started(l, spec.id);
    assert Run(l, [start, end]) == Run(Apply(l, start), [end]) by { assert [start, end][1..] == [end]; }
    assert Run(Apply(l, start), [end]) == Apply(Apply(l, start), end) by { assert [end][1..] == []; }
  }

  lemma {:induction false} FoundAgain(checks: seq<Spec>, spec: Spec)
    requires DistinctIds(checks) && spec in checks
    ensures FindCheck(checks, spec.id) == Some(spec)
  {
    if checks[0] != spec {
      assert spec in checks[1..];
      FoundAgain(checks[1..], spec);
    } else {
      assert checks[0].id == spec.id;
    }
  }

  /** Every recorded exit code is the one its context determines. */
  ghost predicate Deterministic(l: State, host: Host) {
    forall i | 0 <= i < |l.attempts| && l.attempts[i].before.Some? && l.attempts[i].code.Some? ::
      l.attempts[i].code.value == host.exit(l.attempts[i].before.value)
  }

  /** Nothing runs, all logs are intact, and the ledger is consistent with the host. */
  ghost predicate Quiet(l: State, host: Host) {
    Inv(l) && l.task.Some? && !AnyRunning(l) && host.env.broken == {} && Deterministic(l, host)
  }

  /** The check would pass if it were run now. */
  predicate WouldPass(host: Host, task: Task, spec: Spec) {
    var c := ContextOf(host.env, task, spec);
    c.Some? && host.exit(c.value) == 0
  }

  lemma RunOneKeepsQuiet(l: State, host: Host, spec: Spec)
    requires Quiet(l, host) && spec in l.task.value.checks
    ensures Quiet(RunOne(l, host, spec), host)
    ensures RunOne(l, host, spec).attempts[|l.attempts|].status == PASS <==> WouldPass(host, l.task.value, spec)
  {
    var r := RunOne(l, host, spec);
    assert WellRecorded(r.attempts[|l.attempts|]);
  }

  /** A fresh run decides its check. */
  lemma RunOneDecides(l: State, host: Host, spec: Spec)
    requires Quiet(l, host) && spec in l.task.value.checks
    ensures Report(RunOne(l, host, spec), host.env, l.task.value, spec) == PASS <==> WouldPass(host, l.task.value, spec)
  {
    var r := RunOne(l, host, spec);
    assert Newest(r.attempts, spec.id, None) == Some(|l.attempts|);
    assert Newest(r.attempts, spec.id, l.task) == Some(|l.attempts|);
  }

  /** ... and leaves the verdict on every other check alone. */
  lemma RunOneElsewhere(l: State, host: Host, spec: Spec, other: Spec)
    requires l.task.Some? && other.id != spec.id
    ensures Report(RunOne(l, host, spec), host.env, l.task.value, other) == Report(l, host.env, l.task.value, other)
  {
    var r := RunOne(l, host, spec);
    assert r.attempts[..|l.attempts|] == l.attempts;
  }

  /** A reusable pass is what a new run would give. */
  lemma ReuseIsSound(l: State, host: Host, spec: Spec)
    requires Quiet(l, host) && Report(l, host.env, l.task.value, spec) == PASS
    ensures WouldPass(host, l.task.value, spec)
  {
    var i := Deciding(l.attempts, l.task.value, spec).value;
    assert Holds(l.attempts[i], host.env, l.task.value, spec, i);
  }

  ghost predicate AllReported(l: State, host: Host, specs: seq<Spec>)
    requires l.task.Some?
  {
    forall s | s in specs :: Report(l, host.env, l.task.value, s) == PASS
  }

  /** From any point of the batch on: every check of the task is reported as passed at the end exactly when the
      remaining ones would pass. */
  lemma {:induction false} BatchVerdict(l: State, host: Host, reuse: bool, done: seq<Spec>, specs: seq<Spec>)
    requires Quiet(l, host) && l.task.value.checks == done + specs && AllReported(l, host, done)
    ensures var r := RunAll(l, host, reuse, specs);
            && Quiet(r, host) && r.task == l.task
            && (AllReported(r, host, l.task.value.checks) <==>
                forall s | s in specs :: WouldPass(host, l.task.value, s))
    decreases |specs|
  {
    var task := l.task.value;
    if specs == [] {
      assert done + specs == done;
    } else {
      var spec := specs[0];
      assert spec in task.checks;
      assert task.checks == (done + [spec]) + specs[1..];
      assert forall s | s in specs :: s == spec || s in specs[1..];
      if reuse && MayReuse(l, host, spec) {
        ReuseIsSound(l, host, spec);
        BatchVerdict(l, host, reuse, done + [spec], specs[1..]);
      } else {
        var r := RunOne(l, host, spec);
        RunOneKeepsQuiet(l, host, spec);
        RunOneDecides(l, host, spec);
        if WouldPass(host, task, spec) {
          forall s | s in done ensures Report(r, host.env, task, s) == PASS {
            DistinctFromDone(task.checks, done, spec, s);
            RunOneElsewhere(l, host, spec, s);
          }
          BatchVerdict(r, host, reuse, done + [spec], specs[1..]);
        }
      }
    }
  }

  /** A batch does nothing but start and end attempts: its result is that of a run of ledger commands. */
  lemma {:induction false} BatchIsARun(l: State, host: Host, reuse: bool, specs: seq<Spec>) returns (cs: seq<Command>)
    requires Quiet(l, host) && forall s | s in specs :: s in l.task.value.checks
    ensures RunAll(l, host, reuse, specs) == Run(l, cs)
    decreases |specs|
  {
    if specs == [] {
      cs := [];
    } else if reuse && MayReuse(l, host, specs[0]) {
      cs := BatchIsARun(l, host, reuse, specs[1..]);
    } else {
      var spec := specs[0];
      var r := RunOne(l, host, spec);
      var c := ContextOf(host.env, l.task.value, spec);
      var code := if c.Some? then Some(host.exit(c.value)) else None;
      var first := [StartRun(spec.id, l.task), EndRun(|l.attempts|, c, code, c)];
      RunOneIsTwoCommands(l, host, spec);
      RunOneKeepsQuiet(l, host, spec);
      if r.attempts[|l.attempts|].status != PASS {
        cs := first;
      } else {
        var rest := BatchIsARun(r, host, reuse, specs[1..]);
        RunAppend(l, first, rest);
        cs := first + rest;
      }
    }
  }

  /** So what holds of every reachable ledger holds after a batch, whichever checks it skipped. */
  lemma BatchStaysReachable(history: seq<Command>, host: Host, reuse: bool) returns (longer: seq<Command>)
    requires var l := Run(EMPTY, history);
             l.task.Some? && !AnyRunning(l) && host.env.broken == {} && Deterministic(l, host)
    ensures var l := Run(EMPTY, history);
            history <= longer && RunAll(l, host, reuse, l.task.value.checks) == Run(EMPTY, longer)
    ensures Inv(Run(EMPTY, longer)) && !AnyRunning(Run(EMPTY, longer))
  {
    ReachableLedger(history);
    var l := Run(EMPTY, history);
    var checks := l.task.value.checks;
    var cs := BatchIsARun(l, host, reuse, checks);
    RunAppend(EMPTY, history, cs);
    assert [] + checks == checks;
    BatchVerdict(l, host, reuse, [], checks);
    longer := history + cs;
  }

  lemma DistinctFromDone(checks: seq<Spec>, done: seq<Spec>, spec: Spec, s: Spec)
    requires DistinctIds(checks) && done + [spec] <= checks && s in done
    ensures s.id != spec.id
  {
    var i :| 0 <= i < |done| && done[i] == s;
    assert checks[i] == (done + [spec])[i] && checks[|done|] == (done + [spec])[|done|];
  }

  /** The batch with reuse and the forced batch agree on passed, from any reachable quiet ledger. */
  lemma ReuseAgreesWithForced(history: seq<Command>, host: Host)
    requires var l := Run(EMPTY, history);
             l.task.Some? && !AnyRunning(l) && host.env.broken == {} && Deterministic(l, host)
    ensures var l := Run(EMPTY, history);
            Passed(RunAll(l, host, true, l.task.value.checks), host.env) ==
            Passed(RunAll(l, host, false, l.task.value.checks), host.env)
  {
    ReachableLedger(history);
    var l := Run(EMPTY, history);
    var checks := l.task.value.checks;
    assert [] + checks == checks;
    BatchVerdict(l, host, true, [], checks);
    BatchVerdict(l, host, false, [], checks);
  }

  /** What a batch says about the requirements: it passes exactly if the task has checks, each of them would pass, and
      each requirement is covered by one of them. */
  lemma BatchCovers(history: seq<Command>, host: Host, reuse: bool)
    requires var l := Run(EMPTY, history);
             l.task.Some? && !AnyRunning(l) && host.env.broken == {} && Deterministic(l, host)
    ensures var l := Run(EMPTY, history);
            var task := l.task.value;
            Passed(RunAll(l, host, reuse, task.checks), host.env) <==>
              && task.checks != [] && (forall s | s in task.checks :: WouldPass(host, task, s))
              && (forall r | 0 <= r < |task.requirements| :: HasCheck(task, r))
  {
    ReachableLedger(history);
    var l := Run(EMPTY, history);
    var checks := l.task.value.checks;
    assert [] + checks == checks;
    BatchVerdict(l, host, reuse, [], checks);
    PassedIsProven(RunAll(l, host, reuse, checks), host.env);
    forall s | s in checks
      ensures Report(RunAll(l, host, reuse, checks), host.env, l.task.value, s) == PASS <==>
              PassedNow(RunAll(l, host, reuse, checks), host.env, l.task.value, s)
    {
      ReportedPass(RunAll(l, host, reuse, checks), host.env, l.task.value, s);
    }
  }

  /** A batch with reuse skips a check exactly if it is reusable, nothing runs, and it has passed in the context of now;
      every other check is run, and the first that does not pass ends the batch. */
  lemma BatchTakes(l: State, host: Host, reuse: bool, spec: Spec, rest: seq<Spec>)
    requires l.task.Some?
    ensures var skipped := reuse && spec.reusable && PassedNow(l, host.env, l.task.value, spec) &&
                           forall a | a in l.attempts :: a.status != RUNNING;
            var next := if skipped then l else RunOne(l, host, spec);
            RunAll(l, host, reuse, [spec] + rest) ==
            if skipped || WouldPass(host, l.task.value, spec) then RunAll(next, host, reuse, rest) else next
  {
    ReportedPass(l, host.env, l.task.value, spec);
    assert ([spec] + rest)[0] == spec && ([spec] + rest)[1..] == rest;
  }
}
