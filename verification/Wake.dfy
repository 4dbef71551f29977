/** _signal and _wake_reason: when the queue wakes the model, and what the wake-up then means. The signal is taken
    outside a transaction, so study, counts and readiness are three reads, and the controller may go on between them. */
module Wake {
  import opened Wrappers
  import opened Graph
  import opened Queue
  import opened QueueTruth
  import Paths
  import Trie

  datatype Policy = Policy(completed: nat, minInterval: nat, lowWater: nat, improvement: Option<real>)

  datatype Signal = Signal(phase: Phase, counts: map<JobState, nat>, ready: bool, best: Option<Best>)

  datatype Reason =
    | StudyState(phase: Phase) | NewFailure | DependencyBlocked | QueueDrained | BatchReady | QueueLow
    | SignificantImprovement

  const STATES: set<JobState> := {PENDING, RUNNING, VERIFIED, FAILED, ERROR, STALE, CANCELLED}

  /** The study is read first, then the states are counted, then a ready job is looked for. */
  function SignalOf(read: State, counted: State, searched: State): Signal
    requires read.study.Some?
  {
    Signal(read.study.value.phase, map s | s in STATES :: Count(counted, s),
           Count(counted, PENDING) > 0 && ReadyRow(searched).Some?, read.study.value.best)
  }

  function At(s: Signal, k: JobState): nat {
    if k in s.counts then s.counts[k] else 0
  }

  function Completed(s: Signal): nat {
    At(s, VERIFIED) + At(s, FAILED) + At(s, ERROR) + At(s, STALE) + At(s, CANCELLED)
  }

  function Distance(a: real, b: real): real {
    if a >= b then a - b else b - a
  }

  /** The order of the tests decides which reason wins. */
  function WakeReason(now: Signal, before: Signal, elapsed: nat, policy: Policy): Option<Reason> {
    if now.phase in {PAUSED, FINISHED, PAUSING} then Some(StudyState(now.phase))
    else if At(now, FAILED) > At(before, FAILED) || At(now, ERROR) > At(before, ERROR) ||
            At(now, STALE) > At(before, STALE)
    then Some(NewFailure)
    else if At(now, RUNNING) == 0 && !now.ready
    then Some(if At(now, PENDING) > 0 then DependencyBlocked else QueueDrained)
    else if Completed(now) - Completed(before) >= policy.completed then Some(BatchReady)
    else if elapsed < policy.minInterval then None
    else if At(now, PENDING) <= policy.lowWater && At(now, PENDING) < At(before, PENDING) then Some(QueueLow)
    else if policy.improvement.Some? && now.best.Some? && before.best.Some? &&
            now.best.value.id != before.best.value.id &&
            Distance(now.best.value.score, before.best.value.score) >= policy.improvement.value
    then Some(SignificantImprovement)
    else None
  }

  lemma NoneCounted(q: State, s: JobState)
    ensures Count(q, s) == 0 <==> forall n | n in q.rows :: q.rows[n].state != s
  {
    var counted := set n | n in q.rows && q.rows[n].state == s;
    assert |counted| == 0 <==> counted == {};
    if forall n | n in q.rows :: q.rows[n].state != s {
      assert counted == {};
    } else {
      var n :| n in q.rows && q.rows[n].state == s;
      assert n in counted;
    }
  }

  /** What the two idle reasons say about the reads behind them. */
  lemma IdleReasons(read: State, counted: State, searched: State, before: Signal, elapsed: nat, policy: Policy)
    requires read.study.Some?
    ensures WakeReason(SignalOf(read, counted, searched), before, elapsed, policy) == Some(DependencyBlocked) ==>
              Count(counted, RUNNING) == 0 && Count(counted, PENDING) > 0 && ReadyRow(searched).None?
    ensures WakeReason(SignalOf(read, counted, searched), before, elapsed, policy) == Some(QueueDrained) ==>
              Count(counted, RUNNING) == 0 && Count(counted, PENDING) == 0
  {
  }

  lemma NothingReady(q: State)
    requires Inv(q) && ReadyRow(q).None?
    ensures forall n | n in q.rows :: !IsReady(q, n)
  {
    assert q.order[0..] == q.order;
  }

  // ---------- between the reads ----------

  /** What no commands undo: rows and their definitions stay, what ended stays as it ended, what was started stays
      so. */
  ghost predicate Onward(q: State, r: State) {
    forall n | n in q.rows ::
      n in r.rows && r.rows[n].job == q.rows[n].job &&
      (Terminal(q.rows[n].state) ==> r.rows[n].state == q.rows[n].state) &&
      (Started(q.rows[n].state) ==> Started(r.rows[n].state))
  }

  lemma {:induction false} RunIsOnward(q: State, cs: seq<Command>)
    requires Inv(q)
    ensures Inv(Run(q, cs)) && Onward(q, Run(q, cs))
    decreases |cs|
  {
    if cs != [] {
      ApplyKeepsInv(q, cs[0]);
      RunIsOnward(Apply(q, cs[0]), cs[1..]);
    }
  }

  /** The job can never run: it was cancelled, or it waits for one that ended unverified. */
  ghost predicate NeverRuns(q: State, n: Name)
    requires n in q.rows
  {
    q.rows[n].state == CANCELLED || (q.rows[n].state == PENDING && DeadAncestor(q, n))
  }

  /** A job below a dead one has a dead ancestor. */
  lemma DeadBelow(q: State, m: Name, d: Name)
    requires Inv(q) && m in q.rows && d in q.rows[m].job.dependsOn && d in q.rows
    requires Dead(q.rows[d].state) || DeadAncestor(q, d)
    ensures DeadAncestor(q, m)
  {
    var g := DepsOf(q.rows);
    DirectDependency(g, m, d);
    if DeadAncestor(q, d) {
      var a :| a in q.rows && Dead(q.rows[a].state) && DependsOn(g, d, a);
      DependsOnTransitive(g, m, d, a);
    }
  }

  /** A pending job that is not ready has a dependency that is not verified. */
  lemma OpenDependency(q: State, m: Name) returns (d: Name)
    requires Inv(q) && m in q.rows && q.rows[m].state == PENDING && !IsReady(q, m)
    ensures d in q.rows[m].job.dependsOn && d in q.rows && q.rows[d].state != VERIFIED
  {
    var e :| e in q.index && e.0 == m && !(e.1 in q.rows && q.rows[e.1].state == VERIFIED);
    d := e.1;
    var g := DepsOf(q.rows);
    assert m in g && d in g[m] && d in g;
  }

  lemma CountedToo(counted: State, q: State, m: Name, d: Name)
    requires Inv(counted) && Onward(counted, q) && m in counted.rows && d in q.rows[m].job.dependsOn
    ensures d in counted.rows
  {
    var g := DepsOf(counted.rows);
    assert m in g && d in g[m] && d in g;
  }

  /** Nothing that was counted runs, if nothing ran when it was counted and nothing was claimed since. */
  lemma StillPending(counted: State, q: State, d: Name)
    requires Onward(counted, q) && d in counted.rows && counted.rows[d].state != RUNNING
    requires counted.rows[d].state == PENDING ==> !Started(q.rows[d].state)
    requires q.rows[d].state != VERIFIED && !Dead(q.rows[d].state)
    ensures q.rows[d].state == PENDING
  {
  }

  /** A job that was counted as pending and is waiting still, without a dead ancestor, waits for another such job. */
  lemma WaitsForCounted(counted: State, q: State, m: Name) returns (d: Name)
    requires Inv(counted) && Inv(q) && Onward(counted, q) && (forall n | n in q.rows :: !IsReady(q, n))
    requires forall n | n in counted.rows :: counted.rows[n].state != RUNNING
    requires forall n | n in counted.rows && counted.rows[n].state == PENDING :: !Started(q.rows[n].state)
    requires m in counted.rows && q.rows[m].state == PENDING && !DeadAncestor(q, m)
    ensures d in q.rows[m].job.dependsOn && d in counted.rows && q.rows[d].state == PENDING && !DeadAncestor(q, d)
  {
    d := OpenDependency(q, m);
    CountedToo(counted, q, m, d);
    if Dead(q.rows[d].state) || DeadAncestor(q, d) {
      DeadBelow(q, m, d);
    }
    StillPending(counted, q, d);
  }

  lemma UnclaimedNeverRuns(counted: State, q: State, n: Name)
    requires Inv(counted) && Inv(q) && Onward(counted, q) && (forall m | m in q.rows :: !IsReady(q, m))
    requires forall m | m in counted.rows :: counted.rows[m].state != RUNNING
    requires forall m | m in counted.rows && counted.rows[m].state == PENDING :: !Started(q.rows[m].state)
    requires n in counted.rows && counted.rows[n].state == PENDING
    ensures NeverRuns(q, n)
  {
    var stuck := set m | m in counted.rows && q.rows[m].state == PENDING && !DeadAncestor(q, m);
    if n in stuck {
      var m := AcyclicHasSource(DepsOf(q.rows), stuck);
      var d := WaitsForCounted(counted, q, m);
    }
  }

  /** DEPENDENCY_BLOCKED is true of the pending jobs it counted if and only if none of them was claimed between the
      count and the search. */
  lemma BlockedIsExact(read: State, cs: seq<Command>, ds: seq<Command>, before: Signal, elapsed: nat, policy: Policy)
    requires Inv(read) && read.study.Some?
    requires var counted := Run(read, cs);
             WakeReason(SignalOf(read, counted, Run(counted, ds)), before, elapsed, policy) == Some(DependencyBlocked)
    ensures var counted := Run(read, cs);
            var searched := Run(counted, ds);
            && (forall n | n in counted.rows :: n in searched.rows)
            && ((forall n | n in counted.rows && counted.rows[n].state == PENDING :: NeverRuns(searched, n)) <==>
                (forall n | n in counted.rows && counted.rows[n].state == PENDING :: !Started(searched.rows[n].state)))
  {
    var counted := Run(read, cs);
    var searched := Run(counted, ds);
    RunKeepsInv(read, cs);
    RunIsOnward(counted, ds);
    IdleReasons(read, counted, searched, before, elapsed, policy);
    NoneCounted(counted, RUNNING);
    NothingReady(searched);
    if forall n | n in counted.rows && counted.rows[n].state == PENDING :: !Started(searched.rows[n].state) {
      forall n | n in counted.rows && counted.rows[n].state == PENDING ensures NeverRuns(searched, n) {
        UnclaimedNeverRuns(counted, searched, n);
      }
    }
  }

  ghost predicate NoClaims(cs: seq<Command>) {
    forall c | c in cs :: !c.Claim?
  }

  lemma UnclaimedRow(q: State, c: Command, n: Name)
    requires !c.Claim? && !c.Enqueue? && n in q.rows && !Started(q.rows[n].state)
    ensures n in Apply(q, c).rows && !Started(Apply(q, c).rows[n].state)
  {
  }

  lemma UnclaimedStep(q: State, c: Command)
    requires !c.Claim?
    ensures forall n | n in q.rows && !Started(q.rows[n].state) ::
              n in Apply(q, c).rows && !Started(Apply(q, c).rows[n].state)
  {
    if c.Enqueue? {
      AddRowsAdds(q.rows, c.batch);
    } else {
      forall n | n in q.rows && !Started(q.rows[n].state)
        ensures n in Apply(q, c).rows && !Started(Apply(q, c).rows[n].state)
      {
        UnclaimedRow(q, c, n);
      }
    }
  }

  lemma {:induction false} UnclaimedStaysUnstarted(q: State, cs: seq<Command>)
    requires Inv(q) && NoClaims(cs)
    ensures forall n | n in q.rows && !Started(q.rows[n].state) ::
              n in Run(q, cs).rows && !Started(Run(q, cs).rows[n].state)
    decreases |cs|
  {
    if cs != [] {
      UnclaimedStep(q, cs[0]);
      ApplyKeepsInv(q, cs[0]);
      UnclaimedStaysUnstarted(Apply(q, cs[0]), cs[1..]);
    }
  }

  /** Whatever else commits between the reads: without a claim there, a blocked wake-up counted jobs that can never run.
      A drained wake-up is always true of the jobs it counted. */
  lemma WakeUpsAreTruthful(read: State, cs: seq<Command>, ds: seq<Command>, before: Signal, elapsed: nat,
                           policy: Policy)
    requires Inv(read) && read.study.Some?
    ensures var counted := Run(read, cs);
            var searched := Run(counted, ds);
            var reason := WakeReason(SignalOf(read, counted, searched), before, elapsed, policy);
            && (reason == Some(DependencyBlocked) && NoClaims(ds) ==>
                  (exists n :: n in counted.rows && counted.rows[n].state == PENDING) &&
                  forall n | n in counted.rows && counted.rows[n].state == PENDING ::
                    n in searched.rows && NeverRuns(searched, n))
            && (reason == Some(QueueDrained) ==> forall n | n in counted.rows :: Terminal(counted.rows[n].state))
  {
    var counted := Run(read, cs);
    var searched := Run(counted, ds);
    RunKeepsInv(read, cs);
    IdleReasons(read, counted, searched, before, elapsed, policy);
    NoneCounted(counted, PENDING);
    NoneCounted(counted, RUNNING);
    if WakeReason(SignalOf(read, counted, searched), before, elapsed, policy) == Some(DependencyBlocked) &&
      NoClaims(ds) {
      BlockedIsExact(read, cs, ds, before, elapsed, policy);
      UnclaimedStaysUnstarted(counted, ds);
    }
  }

  // ---------- what is pending when nothing is ready ----------

  ghost predicate RunningAncestor(q: State, n: Name) {
    exists a :: a in q.rows && q.rows[a].state == RUNNING && DependsOn(DepsOf(q.rows), n, a)
  }

  lemma RunningBelow(q: State, m: Name, d: Name)
    requires Inv(q) && m in q.rows && d in q.rows[m].job.dependsOn && d in q.rows
    requires q.rows[d].state == RUNNING || RunningAncestor(q, d)
    ensures RunningAncestor(q, m)
  {
    var g := DepsOf(q.rows);
    DirectDependency(g, m, d);
    if RunningAncestor(q, d) {
      var a :| a in q.rows && q.rows[a].state == RUNNING && DependsOn(g, d, a);
      DependsOnTransitive(g, m, d, a);
    }
  }

  /** A waiting job with neither a dead nor a running ancestor waits for another one. */
  lemma WaitsForIdle(q: State, m: Name) returns (d: Name)
    requires Inv(q) && (forall n | n in q.rows :: !IsReady(q, n))
    requires m in q.rows && q.rows[m].state == PENDING && !DeadAncestor(q, m) && !RunningAncestor(q, m)
    ensures d in q.rows[m].job.dependsOn && d in q.rows && q.rows[d].state == PENDING
    ensures !DeadAncestor(q, d) && !RunningAncestor(q, d)
  {
    d := OpenDependency(q, m);
    if Dead(q.rows[d].state) || DeadAncestor(q, d) {
      DeadBelow(q, m, d);
    }
    if q.rows[d].state == RUNNING || RunningAncestor(q, d) {
      RunningBelow(q, m, d);
    }
  }

  lemma PendingWaits(q: State, n: Name)
    requires Inv(q) && (forall m | m in q.rows :: !IsReady(q, m)) && n in q.rows && q.rows[n].state == PENDING
    ensures DeadAncestor(q, n) || RunningAncestor(q, n)
  {
    var stuck := set m | m in q.rows && q.rows[m].state == PENDING && !DeadAncestor(q, m) && !RunningAncestor(q, m);
    if n in stuck {
      var m := AcyclicHasSource(DepsOf(q.rows), stuck);
      var d := WaitsForIdle(q, m);
    }
  }

  /** When no job is ready, all pending ones are blocked for good if and only if those that wait for a running job also
      wait for one that ended unverified; in particular when nothing runs. */
  lemma PendingIsExact(q: State)
    requires Inv(q) && ReadyRow(q).None?
    ensures (forall n | n in q.rows && q.rows[n].state == PENDING :: DeadAncestor(q, n)) <==>
            (forall n | n in q.rows && q.rows[n].state == PENDING && RunningAncestor(q, n) :: DeadAncestor(q, n))
    ensures (forall n | n in q.rows :: q.rows[n].state != RUNNING) ==>
            forall n | n in q.rows && q.rows[n].state == PENDING :: DeadAncestor(q, n)
  {
    NothingReady(q);
    forall n | n in q.rows && q.rows[n].state == PENDING ensures DeadAncestor(q, n) || RunningAncestor(q, n) {
      PendingWaits(q, n);
    }
  }

  // ---------- where it fails ----------

  const FIRST := Job(["a"], [], "")
  const SECOND := Job(["b"], ["A"], "")
  const BATCH := [("A", FIRST), ("B", SECOND)]
  const SETUP := [Configure(true), Enqueue(BATCH, true), Start("n"), WorkerUp("n")]

  /** Two jobs in an active study, the second after the first. */
  function TwoJobs(): State {
    State(map["A" := Row(FIRST, PENDING, None, None), "B" := Row(SECOND, PENDING, None, None)], ["A", "B"],
          {("B", "A")}, Some(Study(ACTIVE, true, 2, Some("n"), None)))
  }

  lemma TwoJobsOk()
    ensures GraphOk(TwoJobs().rows)
  {
    TwoApart();
    var g := DepsOf(TwoJobs().rows);
    assert g == map["A" := [], "B" := ["A"]];
    assert ["A", "B"][..1] == ["A"];
    TopologicalIsAcyclic(g, ["A", "B"]);
  }

  lemma TwoApart()
    ensures Trie.Disjoint(OutputsOf(TwoJobs().rows))
  {
    var outputs := OutputsOf(TwoJobs().rows);
    assert outputs == map["A" := ["a"], "B" := ["b"]];
    forall n, m, p, q | n in outputs && m in outputs && n != m && p in outputs[n] && q in outputs[m]
      ensures !Paths.Nested(Paths.Split(p), Paths.Split(q))
    {
      LettersApart(if n == "A" then 'a' else 'b', if m == "A" then 'a' else 'b');
    }
  }

  lemma LettersApart(c: char, d: char)
    requires c != '/' && d != '/' && c != d
    ensures !Paths.Nested(Paths.Split([c]), Paths.Split([d]))
  {
    SplitLetter(c);
    SplitLetter(d);
    assert [[c]][0][0] == c && [[d]][0][0] == d;
  }

  lemma SplitLetter(c: char)
    requires c != '/'
    ensures Paths.Split([c]) == [[c]]
  {
    assert [c][1..] == "" && Paths.Split("") == [""];
    assert [c] + "" == [c];
  }

  lemma TwoRows()
    ensures AddRows(map[], BATCH) == TwoJobs().rows && |TwoJobs().rows| == 2
  {
    var one := map["A" := Row(FIRST, PENDING, None, None)];
    assert BATCH[1..] == [("B", SECOND)] && BATCH[1..][1..] == [];
    assert AddRows(map[], BATCH) == AddRows(one, BATCH[1..]) == AddRows(TwoJobs().rows, []);
    assert TwoJobs().rows.Keys == {"A", "B"};
  }

  lemma TwoListed()
    ensures AddOrder(map[], [], BATCH) == ["A", "B"]
  {
    assert BATCH[1..] == [("B", SECOND)] && BATCH[1..][1..] == [];
    assert [] + ["A"] == ["A"] && ["A"] + ["B"] == ["A", "B"];
    assert AddOrder(map[], [], BATCH) == AddOrder(map[], ["A"], BATCH[1..]) == AddOrder(map[], ["A", "B"], []);
  }

  lemma TwoIndexed()
    ensures IndexOf(TwoJobs().rows) == {("B", "A")} && IndexOf(map[]) == {}
  {
  }

  lemma TwoJobsEnqueued(q: State)
    requires q == State(map[], [], {}, Some(Study(PAUSED, true, 0, None, None)))
    ensures Apply(q, Enqueue(BATCH, true)) == TwoJobs().(study := Some(Study(PAUSED, true, 2, None, None)))
  {
    TwoJobsOk();
    TwoRows();
    TwoListed();
    TwoIndexed();
  }

  lemma FourCommands(q: State, a: Command, b: Command, c: Command, d: Command)
    ensures Run(q, [a, b, c, d]) == Apply(Apply(Apply(Apply(q, a), b), c), d)
  {
    assert [a, b, c, d][1..] == [b, c, d] && [b, c, d][1..] == [c, d] && [c, d][1..] == [d] && [d][1..] == [];
    var q1 := Apply(q, a);
    var q2 := Apply(q1, b);
    var q3 := Apply(q2, c);
    assert Run(q, [a, b, c, d]) == Run(q1, [b, c, d]) == Run(q2, [c, d]) == Run(q3, [d]) == Run(Apply(q3, d), []);
  }

  lemma WorkerComesUp(q: State)
    requires q == TwoJobs().(study := Some(Study(PAUSED, true, 2, None, None)))
    ensures Apply(Apply(q, Start("n")), WorkerUp("n")) == TwoJobs()
  {
  }

  lemma SetupReaches()
    ensures Run(EMPTY, SETUP) == TwoJobs()
  {
    FourCommands(EMPTY, SETUP[0], SETUP[1], SETUP[2], SETUP[3]);
    var a := Apply(EMPTY, SETUP[0]);
    TwoJobsEnqueued(a);
    WorkerComesUp(Apply(a, SETUP[1]));
  }

  lemma FirstIsClaimed()
    ensures ReadyRow(TwoJobs()) == Some("A") && Run(TwoJobs(), [Claim("n", true)]) == Claimed(TwoJobs(), "n")
  {
    assert [Claim("n", true)][1..] == [];
  }

  lemma SecondIsNotReady()
    ensures ReadyRow(Claimed(TwoJobs(), "n")).None?
  {
    var searched := Claimed(TwoJobs(), "n");
    FirstIsClaimed();
    assert !IsReady(searched, "B") by {
      assert ("B", "A") in searched.index;
    }
    assert ReadyRow(searched, 1).None? && !IsReady(searched, "A");
  }

  lemma TwoPending()
    ensures Count(TwoJobs(), PENDING) > 0
    ensures forall s | s in {RUNNING, FAILED, ERROR, STALE} :: Count(TwoJobs(), s) == 0
  {
    var q := TwoJobs();
    assert "A" in q.rows && q.rows["A"].state == PENDING;
    NoneCounted(q, PENDING);
    NoneCounted(q, RUNNING);
    NoneCounted(q, FAILED);
    NoneCounted(q, ERROR);
    NoneCounted(q, STALE);
  }

  lemma BlockedReason(now: Signal, before: Signal, elapsed: nat, policy: Policy)
    requires now.phase == ACTIVE && !now.ready && At(now, PENDING) > 0
    requires forall s | s in {RUNNING, FAILED, ERROR, STALE} :: At(now, s) == 0
    ensures WakeReason(now, before, elapsed, policy) == Some(DependencyBlocked)
  {
    assert RUNNING in {RUNNING, FAILED, ERROR, STALE} && FAILED in {RUNNING, FAILED, ERROR, STALE};
    assert ERROR in {RUNNING, FAILED, ERROR, STALE} && STALE in {RUNNING, FAILED, ERROR, STALE};
  }

  /** A claim between the count and the search: the wake-up says that everything is blocked, while the first job runs
      and the second waits for it alone. */
  lemma BlockedCanBeFalse(before: Signal, elapsed: nat, policy: Policy)
    ensures var counted := Run(EMPTY, SETUP);
            var searched := Run(counted, [Claim("n", true)]);
            && counted.study.Some?
            && WakeReason(SignalOf(counted, counted, searched), before, elapsed, policy) == Some(DependencyBlocked)
            && "A" in searched.rows && searched.rows["A"].state == RUNNING
            && "B" in searched.rows && searched.rows["B"].state == PENDING && !DeadAncestor(searched, "B")
  {
    SetupReaches();
    FirstIsClaimed();
    SecondIsNotReady();
    TwoPending();
    BlockedReason(SignalOf(TwoJobs(), TwoJobs(), Claimed(TwoJobs(), "n")), before, elapsed, policy);
  }

  // ---------- when it wakes ----------

  /** The signal counts every state. */
  ghost predicate Full(s: Signal) {
    PENDING in s.counts && RUNNING in s.counts && VERIFIED in s.counts && FAILED in s.counts && ERROR in s.counts &&
    STALE in s.counts && CANCELLED in s.counts
  }

  lemma SignalsAreFull(read: State, counted: State, searched: State)
    requires read.study.Some?
    ensures Full(SignalOf(read, counted, searched))
  {
  }

  ghost predicate Halted(now: Signal) {
    now.phase in {PAUSED, PAUSING, FINISHED}
  }

  /** More jobs failed, met an error or went stale than before. */
  ghost predicate FailedSince(now: Signal, before: Signal)
    requires Full(now) && Full(before)
  {
    exists k: JobState :: k in {FAILED, ERROR, STALE} && now.counts[k] > before.counts[k]
  }

  ghost predicate NothingGoesOn(now: Signal)
    requires Full(now)
  {
    now.counts[RUNNING] == 0 && !now.ready
  }

  /** So many more jobs are over. */
  ghost predicate BatchIsOver(now: Signal, before: Signal, policy: Policy)
    requires Full(now) && Full(before)
  {
    Over(now) >= Over(before) + policy.completed
  }

  function Over(s: Signal): nat
    requires Full(s)
  {
    s.counts[VERIFIED] + s.counts[FAILED] + s.counts[ERROR] + s.counts[STALE] + s.counts[CANCELLED]
  }

  ghost predicate RunsLow(now: Signal, before: Signal, policy: Policy)
    requires Full(now) && Full(before)
  {
    now.counts[PENDING] < before.counts[PENDING] && now.counts[PENDING] <= policy.lowWater
  }

  /** Another job is best, and its score is that far from the one before. */
  ghost predicate Improved(now: Signal, before: Signal, policy: Policy) {
    match (now.best, before.best, policy.improvement)
    case (Some(a), Some(b), Some(least)) => a.id != b.id && (a.score - b.score >= least || b.score - a.score >= least)
    case _ => false
  }

  /** Why it wakes: a halt before anything else, then a failure, then that nothing goes on, then a finished batch; and
      only after the least interval, that the queue runs low or the best improved. */
  lemma WhenWoken(now: Signal, before: Signal, elapsed: nat, policy: Policy)
    requires Full(now) && Full(before)
    ensures WakeReason(now, before, elapsed, policy) ==
            if Halted(now) then Some(StudyState(now.phase))
            else if FailedSince(now, before) then Some(NewFailure)
            else if NothingGoesOn(now) && now.counts[PENDING] == 0 then Some(QueueDrained)
            else if NothingGoesOn(now) then Some(DependencyBlocked)
            else if BatchIsOver(now, before, policy) then Some(BatchReady)
            else if policy.minInterval <= elapsed && RunsLow(now, before, policy) then Some(QueueLow)
            else if policy.minInterval <= elapsed && Improved(now, before, policy) then Some(SignificantImprovement)
            else None
  {
    FailedMeans(now, before);
    ImprovedMeans(now, before, policy);
    assert Completed(now) == Over(now) && Completed(before) == Over(before);
    assert NothingGoesOn(now) <==> At(now, RUNNING) == 0 && !now.ready;
    assert RunsLow(now, before, policy) <==>
           At(now, PENDING) <= policy.lowWater && At(now, PENDING) < At(before, PENDING);
  }

  lemma FailedMeans(now: Signal, before: Signal)
    requires Full(now) && Full(before)
    ensures FailedSince(now, before) <==>
            At(now, FAILED) > At(before, FAILED) || At(now, ERROR) > At(before, ERROR) ||
            At(now, STALE) > At(before, STALE)
  {
    if At(now, FAILED) > At(before, FAILED) {
      assert FAILED in {FAILED, ERROR, STALE} && now.counts[FAILED] > before.counts[FAILED];
    } else if At(now, ERROR) > At(before, ERROR) {
      assert ERROR in {FAILED, ERROR, STALE} && now.counts[ERROR] > before.counts[ERROR];
    } else if At(now, STALE) > At(before, STALE) {
      assert STALE in {FAILED, ERROR, STALE} && now.counts[STALE] > before.counts[STALE];
    }
  }

  lemma ImprovedMeans(now: Signal, before: Signal, policy: Policy)
    ensures Improved(now, before, policy) <==>
            policy.improvement.Some? && now.best.Some? && before.best.Some? &&
            now.best.value.id != before.best.value.id &&
            Distance(now.best.value.score, before.best.value.score) >= policy.improvement.value
  {
  }

  /** A failure wake-up is about a job that failed since: it was not in this state when the signal before was taken. */
  lemma FailureIsNew(read0: State, counted0: State, searched0: State, read: State, counted: State, searched: State,
                     elapsed: nat, policy: Policy)
    requires read0.study.Some? && read.study.Some?
    requires WakeReason(SignalOf(read, counted, searched), SignalOf(read0, counted0, searched0), elapsed, policy) ==
             Some(NewFailure)
    ensures exists n :: n in counted.rows && counted.rows[n].state in {FAILED, ERROR, STALE} &&
                        !(n in counted0.rows && counted0.rows[n].state == counted.rows[n].state)
  {
    if Count(counted, FAILED) > Count(counted0, FAILED) {
      MoreMeansNew(counted0, counted, FAILED);
    } else if Count(counted, ERROR) > Count(counted0, ERROR) {
      MoreMeansNew(counted0, counted, ERROR);
    } else {
      MoreMeansNew(counted0, counted, STALE);
    }
  }

  lemma MoreMeansNew(q: State, r: State, state: JobState)
    requires Count(r, state) > Count(q, state)
    ensures exists n :: n in r.rows && r.rows[n].state == state && !(n in q.rows && q.rows[n].state == state)
  {
    var before := set n | n in q.rows && q.rows[n].state == state;
    var after := set n | n in r.rows && r.rows[n].state == state;
    if after <= before {
      SubsetIsSmaller(after, before);
    } else {
      var n :| n in after && n !in before;
    }
  }

  lemma {:induction false} SubsetIsSmaller(a: set<Name>, b: set<Name>)
    requires a <= b
    ensures |a| <= |b|
    decreases a
  {
    if a != {} {
      var n :| n in a;
      SubsetIsSmaller(a - {n}, b - {n});
    }
  }
}
