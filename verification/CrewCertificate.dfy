/** What a COMPLETE crew certifies: one frozen artifact, which the root's checks passed on, and six clear reports on
    it. */
module CrewCertificate {
  import opened Files
  import opened Wrappers
  import Ledger
  import Paths
  import opened Work
  import opened Crew
  import opened CrewInv
  import opened CrewCalls

  ghost predicate CoversAll(report: Report, requirements: nat) {
    forall r | 0 <= r < requirements :: r in report.covers
  }

  /** The report cites files, as they are in the snapshot. */
  ghost predicate Cites(report: Report, f: Snapshot) {
    report.references != map[] && forall p | p in report.references :: p in f && f[p] == Some(report.references[p])
  }

  /** Event j reports on ticket t while the artifact was at f, and cites it; the independent slots cover every
      requirement. */
  ghost predicate ReportsOn(e: Event, t: Ticket, requirements: nat, f: Snapshot) {
    e.Reported? && e.ticket == t && e.artifact == f && Cites(e.report, f) &&
    (Independent(t.slot) ==> CoversAll(e.report, requirements))
  }

  ghost predicate ReportedSince(log: seq<Event>, k: nat, t: Ticket, report: Report, requirements: nat, f: Snapshot) {
    exists j :: k < j < |log| && ReportsOn(log[j], t, requirements, f) && log[j].report == report
  }

  /** All checks of the task passed, in a workspace whose fingerprint is f and shows everything they depend on. */
  ghost predicate Backed(ledger: Ledger.State, checks: Ledger.Env, task: Ledger.Task, paths: set<Paths.Path>,
                         f: Snapshot)
  {
    ledger.task == Some(task) && Ledger.Passed(ledger, checks) &&
    Dependencies(task) <= paths && Fingerprint(checks.files, paths) == f
  }

  /** Event k opened a review of the task on this artifact. */
  ghost predicate Opens(e: Event, plan: nat, paths: set<Paths.Path>, f: Snapshot, task: Ledger.Task) {
    e.Reviewed? && e.plan == plan && e.paths == paths && e.frozen == f && Backed(e.ledger, e.checks, task, paths, f)
  }

  /** Since review k froze the round's artifact, each present report was made on it. */
  ghost predicate ReviewedSince(s: State, k: nat)
    requires s.contract.Some?
  {
    var c := s.contract.value;
    && k < |s.log| && c.reviewTask.Some? && c.reviewTask.value.requirements == c.requirements
    && Opens(s.log[k], c.plan, c.reviewPaths, c.snapshot, c.reviewTask.value)
    && (forall i | 0 <= i < SLOTS && Now(s, i) in s.reports ::
          ReportedSince(s.log, k, Now(s, i), s.reports[Now(s, i)], |c.requirements|, c.snapshot))
  }

  /** The six inspect what is frozen, in the root's own workspace. */
  ghost predicate ReviewTasks(s: State)
    requires s.contract.Some?
  {
    forall i | 0 <= i < SLOTS :: Now(s, i) in s.work && Inspects(s.work[Now(s, i)], s.contract.value)
  }

  ghost predicate Inspects(row: Row, c: Contract) {
    row.task.kind == Investigate && !row.workspace && Scopes(row) == c.reviewPaths
  }

  ghost predicate ReviewRecorded(s: State) {
    s.contract.Some? && s.contract.value.phase == REVIEW ==> ReviewTasks(s) && exists k :: ReviewedSince(s, k)
  }

  ghost predicate ClearReportBetween(log: seq<Event>, k: nat, e: nat, t: Ticket, agent: Agent, requirements: nat,
                                     f: Snapshot)
    requires e <= |log|
  {
    exists j :: k < j < e && ReportsOn(log[j], t, requirements, f) &&
                log[j].report.verdict == Clear && log[j].report.agent == agent
  }

  /** Review k opened on the artifact of the certificate, after the root's checks had passed on it; at the certificate
      they pass on it still, with a valid claim of tested completion for the same task. */
  ghost predicate Checked(c: Event, r: Event)
    requires c.Certified? && r.Reviewed?
  {
    && c.ledger.task.Some? && c.ledger.task.value.requirements == c.requirements
    && Opens(r, c.plan, r.paths, c.artifact, c.ledger.task.value)
    && Backed(c.ledger, c.checks, c.ledger.task.value, r.paths, c.artifact)
    && TestedClaim(c.ledger, c.checks)
  }

  /** Certificate e follows a review k that froze its artifact, and six clear reports on that artifact by six different
      agents in between. */
  ghost predicate CertifiedBy(log: seq<Event>, e: nat, k: nat)
    requires e < |log| && log[e].Certified?
  {
    var c := log[e];
    && k < e && log[k].Reviewed? && Checked(c, log[k])
    && |c.agents| == SLOTS && (forall i, j | 0 <= i < j < SLOTS :: c.agents[i] != c.agents[j])
    && (forall i | 0 <= i < SLOTS ::
          ClearReportBetween(log, k, e, Ticket(c.plan, i), c.agents[i], |c.requirements|, c.artifact))
  }

  ghost predicate AllCertified(log: seq<Event>) {
    forall e | 0 <= e < |log| && log[e].Certified? :: exists k :: CertifiedBy(log, e, k)
  }

  /** The certificate of the completed round names the artifact its contract froze and the six bound agents. */
  ghost predicate Certifies(s: State, e: nat)
    requires s.contract.Some?
  {
    var c := s.contract.value;
    e < |s.log| && s.log[e].Certified? &&
    s.log[e].plan == c.plan && s.log[e].requirements == c.requirements && s.log[e].artifact == c.snapshot &&
    |s.log[e].agents| == SLOTS == |s.members| &&
    forall i | 0 <= i < SLOTS :: s.members[i].agent == Some(s.log[e].agents[i])
  }

  ghost predicate CompletionRecorded(s: State) {
    s.contract.Some? && s.contract.value.phase == COMPLETE ==> exists e :: Certifies(s, e)
  }

  ghost predicate ReportsIssued(s: State) {
    (forall t | t in s.reports :: t.plan < s.plans) && (s.contract.Some? ==> s.contract.value.plan < s.plans)
  }

  ghost predicate Recorded(s: State) {
    ReportsIssued(s) && ReviewRecorded(s) && AllCertified(s.log) && CompletionRecorded(s)
  }

  // ---------- steps ----------

  /** Neither the contract nor the log changes; reports may be withdrawn. */
  ghost predicate SameRecord(s: State, r: State) {
    r.contract == s.contract && r.plans == s.plans && r.log == s.log &&
    forall t | t in r.reports :: t in s.reports && r.reports[t] == s.reports[t]
  }

  lemma KeepsReviewTasks(s: State, r: State)
    requires s.contract.Some? && r.contract == s.contract && ReviewTasks(s) && KeepsRows(s, r)
    ensures ReviewTasks(r)
  {
    forall i | 0 <= i < SLOTS ensures Now(r, i) in r.work && Inspects(r.work[Now(r, i)], r.contract.value) {
      assert Now(r, i) == Now(s, i) && Inspects(s.work[Now(s, i)], s.contract.value);
    }
  }

  lemma SameRecordKeepsReview(s: State, r: State)
    requires ReviewRecorded(s) && SameRecord(s, r) && KeepsRows(s, r)
    ensures ReviewRecorded(r)
  {
    if s.contract.Some? && s.contract.value.phase == REVIEW {
      KeepsReviewTasks(s, r);
      var k :| ReviewedSince(s, k);
      assert forall i | 0 <= i < SLOTS :: Now(r, i) == Now(s, i);
      assert ReviewedSince(r, k);
    }
  }

  lemma SameRecordKeeps(s: State, r: State)
    requires Recorded(s) && SameRecord(s, r) && KeepsAgents(s, r) && KeepsRows(s, r)
    ensures Recorded(r)
  {
    SameRecordKeepsReview(s, r);
    if s.contract.Some? && s.contract.value.phase == COMPLETE {
      var e :| Certifies(s, e);
      assert Certifies(r, e);
    }
  }

  lemma CertifiedByStable(log: seq<Event>, more: seq<Event>, e: nat, k: nat)
    requires e < |log| && log[e].Certified? && CertifiedBy(log, e, k) && log <= more
    ensures CertifiedBy(more, e, k)
  {
    var c := log[e];
    forall i | 0 <= i < SLOTS
      ensures ClearReportBetween(more, k, e, Ticket(c.plan, i), c.agents[i], |c.requirements|, c.artifact)
    {
      var t := Ticket(c.plan, i);
      assert ClearReportBetween(log, k, e, t, c.agents[i], |c.requirements|, c.artifact);
      var j :| k < j < e && ReportsOn(log[j], t, |c.requirements|, c.artifact) &&
               log[j].report.verdict == Clear && log[j].report.agent == c.agents[i];
      assert more[j] == log[j];
    }
  }

  lemma AppendKeepsCertified(log: seq<Event>, e: Event)
    requires AllCertified(log) && !e.Certified?
    ensures AllCertified(log + [e])
  {
    forall i | 0 <= i < |log + [e]| && (log + [e])[i].Certified? ensures exists k :: CertifiedBy(log + [e], i, k) {
      assert log[i].Certified?;
      var k :| CertifiedBy(log, i, k);
      CertifiedByStable(log, log + [e], i, k);
    }
  }

  lemma ReportedSinceStable(log: seq<Event>, more: seq<Event>, k: nat, t: Ticket, report: Report, requirements: nat,
                            f: Snapshot)
    requires ReportedSince(log, k, t, report, requirements, f) && log <= more
    ensures ReportedSince(more, k, t, report, requirements, f)
  {
    var j :| k < j < |log| && ReportsOn(log[j], t, requirements, f) && log[j].report == report;
    assert more[j] == log[j];
  }

  /** What a report in review cites is in the frozen artifact, as it was frozen. */
  lemma ReviewCites(s: State, a: Agent, d: Draft, env: Env)
    requires MayReport(s, a, d, env) && s.contract.value.phase == REVIEW && s.metas[a].ticket.slot < SLOTS &&
             ReviewTasks(s)
    ensures var t := s.metas[a].ticket;
            Cites(Written(d, a, s.contract.value.round, Scopes(s.work[t]), Ground(s, t, env)),
                  s.contract.value.snapshot)
  {
    var t := s.metas[a].ticket;
    var c := s.contract.value;
    assert t == Now(s, t.slot) && Inspects(s.work[t], c);
    forall p | p in d.references ensures p in c.snapshot && c.snapshot[p] == Some(env.files[p]) {
      FingerprintAt(env.files, c.reviewPaths, p);
    }
    var p :| p in d.references;
    assert p in Written(d, a, c.round, Scopes(s.work[t]), Ground(s, t, env)).references;
  }

  /** A report accepted in review was made on the frozen artifact. */
  lemma SubmitInReview(s: State, a: Agent, d: Draft, env: Env, k: nat)
    requires MayReport(s, a, d, env) && s.contract.value.phase == REVIEW && s.metas[a].ticket.slot < SLOTS
    requires ReviewTasks(s) && ReviewedSince(s, k)
    ensures ReviewedSince(Submit(s, a, d, env), k)
  {
    var r := Submit(s, a, d, env);
    var c := s.contract.value;
    var t := s.metas[a].ticket;
    ReviewCites(s, a, d, env);
    assert r.log[|s.log|] == Reported(t, r.reports[t], c.snapshot) &&
           ReportsOn(r.log[|s.log|], t, |c.requirements|, c.snapshot);
    forall i | 0 <= i < SLOTS && Now(r, i) in r.reports
      ensures ReportedSince(r.log, k, Now(r, i), r.reports[Now(r, i)], |c.requirements|, c.snapshot)
    {
      assert Now(r, i) == Now(s, i);
      if Now(s, i) != t {
        ReportedSinceStable(s.log, r.log, k, Now(s, i), s.reports[Now(s, i)], |c.requirements|, c.snapshot);
      }
    }
  }

  lemma SubmitRecords(s: State, a: Agent, d: Draft, env: Env)
    requires Inv(s) && Recorded(s)
    ensures Recorded(Submit(s, a, d, env))
  {
    if MayReport(s, a, d, env) {
      var r := Submit(s, a, d, env);
      AppendKeepsCertified(s.log, r.log[|s.log|]);
      if s.contract.value.phase == REVIEW {
        var k :| ReviewedSince(s, k);
        SubmitInReview(s, a, d, env, k);
        KeepsReviewTasks(s, r);
      }
      CompletionStays(s, r);
    }
  }

  lemma CompletionStays(s: State, r: State)
    requires CompletionRecorded(s) && r.contract == s.contract && r.members == s.members && s.log <= r.log
    ensures CompletionRecorded(r)
  {
    if s.contract.Some? && s.contract.value.phase == COMPLETE {
      var e :| Certifies(s, e);
      assert Certifies(r, e);
    }
  }

  lemma NewRoundRecords(s: State, r: State)
    requires Recorded(s) && r.contract.Some? && r.contract.value.plan == s.plans && r.plans == s.plans + 1
    requires r.contract.value.phase == PLAN || r.contract.value.phase == EXECUTE
    requires r.log == s.log && r.reports == s.reports
    ensures Recorded(r)
  {
  }

  lemma FreshRow(s: State, c: Contract, tasks: seq<Task>, i: nat)
    requires |tasks| == SLOTS && i < SLOTS
    ensures var r := NewRound(s, c, tasks);
            Now(r, i) in r.work && r.work[Now(r, i)] == Row(tasks[i], Pending, None, false, None)
  {
    assert Ticket(s.plans, i) in FreshRows(s.plans, tasks, SLOTS);
  }

  /** A round of investigations of what its contract reviews. */
  lemma RoundInspects(s: State, c: Contract, order: seq<Paths.Path>, i: nat)
    requires i < SLOTS && c.reviewPaths == set p | p in order
    ensures var r := NewRound(s, c, LensTasks(ReviewLenses, order));
            Now(r, i) in r.work && Inspects(r.work[Now(r, i)], c)
  {
    FreshRow(s, c, LensTasks(ReviewLenses, order), i);
  }

  lemma ReviewOpens(s: State, decision: string, order: seq<Paths.Path>, env: Env)
    requires s.contract.Some? && env.evidence.ledger.task.Some?
    requires forall p :: p in order <==> p in ReviewPaths(s.contract.value, env.evidence.ledger.task.value)
    ensures ReviewTasks(OpenReview(s, decision, order, env))
  {
    var r := OpenReview(s, decision, order, env);
    var c := Frozen(s.contract.value, decision, env);
    assert c.reviewPaths == set p | p in order;
    forall i | 0 <= i < SLOTS ensures Now(r, i) in r.work && Inspects(r.work[Now(r, i)], r.contract.value) {
      RoundInspects(AcceptRound(s, false), c, order, i);
    }
  }

  lemma ReviewRecords(s: State, decision: string, order: seq<Paths.Path>, env: Env)
    requires Recorded(s)
    ensures Recorded(Review(s, decision, order, env))
  {
    if MayReview(s, decision, order, env) {
      var r := OpenReview(s, decision, order, env);
      AppendKeepsCertified(s.log, r.log[|s.log|]);
      ReviewOpens(s, decision, order, env);
      assert forall i | 0 <= i < SLOTS :: Now(r, i).plan == s.plans;
      assert ReviewedSince(r, |s.log|);
    }
  }

  lemma SlotCertified(s: State, k: nat, i: nat, env: Env, more: seq<Event>)
    requires s.contract.Some? && ReviewedSince(s, k) && i < SLOTS && i < |s.members| && HasRow(s, i)
    requires SlotReturned(s, i, true, env) && s.members[i].agent.Some? && s.log < more
    ensures var c := s.contract.value;
            ClearReportBetween(more, k, |s.log|, Ticket(c.plan, i), s.members[i].agent.value, |c.requirements|,
                               c.snapshot)
  {
    var c := s.contract.value;
    var t := Now(s, i);
    var j :| k < j < |s.log| && ReportsOn(s.log[j], t, |c.requirements|, c.snapshot) && s.log[j].report == s.reports[t];
    assert more[j] == s.log[j];
  }

  lemma OneMoreCertified(log: seq<Event>, more: seq<Event>, k: nat)
    requires AllCertified(log) && |more| == |log| + 1 && log <= more && more[|log|].Certified?
    requires CertifiedBy(more, |log|, k)
    ensures AllCertified(more)
  {
    forall i | 0 <= i < |more| && more[i].Certified? ensures exists k :: CertifiedBy(more, i, k) {
      if i < |log| {
        assert log[i].Certified?;
        var l :| CertifiedBy(log, i, l);
        CertifiedByStable(log, more, i, l);
      }
    }
  }

  /** The new certificate names artifact and agents of the contract. */
  lemma FinishNames(s: State, decision: string, env: Env)
    requires MayFinish(s, decision, env)
    ensures Certifies(Finish(s, decision, env), |s.log|)
  {
    var r := Finish(s, decision, env);
    assert r.log == s.log + [Certificate(s, env)];
  }

  lemma FinishRecords(s: State, decision: string, env: Env)
    requires Recorded(s)
    ensures Recorded(Finish(s, decision, env))
  {
    if MayFinish(s, decision, env) {
      var r := Finish(s, decision, env);
      var k :| ReviewedSince(s, k);
      var e := |s.log|;
      FinishCertifies(s, decision, env, k);
      OneMoreCertified(s.log, r.log, k);
      FinishNames(s, decision, env);
      assert Certifies(r, e);
    }
  }

  lemma FinishChecked(s: State, decision: string, env: Env, k: nat)
    requires MayFinish(s, decision, env) && ReviewedSince(s, k) && (forall m | m in s.members :: m.agent.Some?)
    ensures Checked(Certificate(s, env), s.log[k])
  {
    assert Dependencies(s.contract.value.reviewTask.value) <= s.contract.value.reviewPaths;
  }

  /** Completion writes a certificate that the review k and the reports since support. */
  lemma FinishCertifies(s: State, decision: string, env: Env, k: nat)
    requires MayFinish(s, decision, env) && ReviewedSince(s, k)
    ensures var r := Finish(s, decision, env);
            |r.log| == |s.log| + 1 && r.log[|s.log|].Certified? && CertifiedBy(r.log, |s.log|, k)
  {
    CertificateBacked(s, decision, env, k);
    assert Finish(s, decision, env).log == s.log + [Certificate(s, env)];
  }

  lemma CertificateBacked(s: State, decision: string, env: Env, k: nat)
    requires MayFinish(s, decision, env) && ReviewedSince(s, k)
    ensures CertifiedBy(s.log + [Certificate(s, env)], |s.log|, k)
  {
    var c, e := Certificate(s, env), |s.log|;
    var log := s.log + [c];
    assert log[e] == c && log[k] == s.log[k];
    FinishChecked(s, decision, env, k);
    forall i | 0 <= i < SLOTS
      ensures ClearReportBetween(log, k, e, Ticket(c.plan, i), c.agents[i], |c.requirements|, c.artifact)
    {
      assert RowSettled(s, i, true, false, env);
      SlotCertified(s, k, i, env, log);
    }
  }

  // ---------- runs ----------

  lemma HostSameRecord(s: State, h: HostCommand)
    ensures SameRecord(s, ApplyHost(s, h))
  {
  }

  lemma WaitSameRecord(s: State, w: WaitCommand)
    ensures SameRecord(s, ApplyWait(s, w))
  {
  }

  lemma RootSameRecord(s: State, r: RootCommand)
    ensures SameRecord(s, ApplyRoot(s, r))
  {
  }

  lemma WorkerRecords(s: State, k: WorkerCommand)
    requires Inv(s) && Recorded(s) && Later(s, ApplyWorker(s, k))
    ensures Recorded(ApplyWorker(s, k))
  {
    if k.SubmitReport? {
      SubmitRecords(s, k.agent, k.draft, k.env);
    } else {
      SameRecordKeeps(s, ApplyWorker(s, k));
    }
  }

  lemma StartRecords(s: State, revise: bool, terms: Terms, free: bool, env: Env)
    requires Recorded(s)
    ensures Recorded(Start(s, revise, terms, free, env))
  {
    if MayStart(s, revise, terms, free, env) {
      NewRoundRecords(s, Start(s, revise, terms, free, env));
    }
  }

  lemma ExecuteRecords(s: State, repair: bool, decision: string, tasks: seq<Task>, env: Env)
    requires Recorded(s)
    ensures Recorded(Execute(s, repair, decision, tasks, env))
  {
    if MayExecute(s, repair, decision, tasks, env) {
      NewRoundRecords(s, Execute(s, repair, decision, tasks, env));
    }
  }

  lemma RoundRecords(s: State, n: RoundCommand)
    requires Recorded(s) && Later(s, ApplyRound(s, n))
    ensures Recorded(ApplyRound(s, n))
  {
    match n
    case StartCrew(revise, terms, free, env) => StartRecords(s, revise, terms, free, env);
    case NextCrew(failing, env) => SameRecordKeeps(s, Next(s, failing, env));
    case ExecuteCrew(repair, decision, tasks, env) => ExecuteRecords(s, repair, decision, tasks, env);
    case ReviewCrew(decision, order, env) => ReviewRecords(s, decision, order, env);
    case CompleteCrew(decision, env) => FinishRecords(s, decision, env);
  }

  lemma CommandRecords(s: State, c: Command)
    requires Inv(s) && Recorded(s)
    ensures Recorded(Apply(s, c))
  {
    CommandIsLater(s, c);
    match c
    case AtHost(h) =>
      HostSameRecord(s, h);
      SameRecordKeeps(s, ApplyHost(s, h));
    case AtWait(w) =>
      WaitSameRecord(s, w);
      SameRecordKeeps(s, ApplyWait(s, w));
    case ByWorker(k) => WorkerRecords(s, k);
    case ByRoot(r) =>
      RootSameRecord(s, r);
      SameRecordKeeps(s, ApplyRoot(s, r));
    case AtRound(n) => RoundRecords(s, n);
  }

  lemma {:induction false} RunRecords(s: State, cs: seq<Command>)
    requires Inv(s) && Recorded(s)
    ensures Recorded(Run(s, cs))
    decreases |cs|
  {
    if cs != [] {
      CommandRecords(s, cs[0]);
      ApplyKeeps(s, cs[0]);
      RunRecords(Apply(s, cs[0]), cs[1..]);
    }
  }

  ghost predicate IsComplete(s: State) {
    s.contract.Some? && s.contract.value.phase == COMPLETE
  }

  /** A crew is COMPLETE only with a certificate for the artifact its contract froze: a review froze it after the root's
      checks passed on it, and since then six different agents reported clear on it, the independent two on every
      requirement. */
  lemma CompleteIsCertified(foreign: set<Agent>, cs: seq<Command>)
    returns (e: nat, k: nat)
    requires IsComplete(Run(Initial(foreign), cs))
    ensures var s := Run(Initial(foreign), cs); Certifies(s, e) && CertifiedBy(s.log, e, k)
  {
    var s := Run(Initial(foreign), cs);
    InitialInv(foreign);
    RunRecords(Initial(foreign), cs);
    e :| Certifies(s, e);
    k :| CertifiedBy(s.log, e, k);
  }

  // ---------- what a certificate says about the files ----------

  /** The attempt saw only files of the artifact, as they are in it, and finished without a change. */
  ghost predicate SawIt(a: Ledger.Attempt, f: Snapshot) {
    && a.status == Ledger.PASS && a.code == Some(0) && a.before.Some? && a.after == a.before
    && (forall p | p in a.before.value.files :: p in f && f[p] == Some(a.before.value.files[p]))
  }

  /** The attempt that decides the check saw the artifact, and every path the check expects to be absent is absent in
      it. */
  ghost predicate DecidedOn(ledger: Ledger.State, spec: Ledger.Spec, f: Snapshot) {
    && ledger.task.Some?
    && var i := Ledger.Deciding(ledger.attempts, ledger.task.value, spec);
       i.Some? && SawIt(ledger.attempts[i.value], f) && forall p | p in spec.execution.absent :: p in f && f[p].None?
  }

  /** Passed checks were decided on the very files the fingerprint records. */
  lemma ChecksSawTheArtifact(ledger: Ledger.State, checks: Ledger.Env, task: Ledger.Task, paths: set<Paths.Path>,
                             f: Snapshot, spec: Ledger.Spec)
    requires Backed(ledger, checks, task, paths, f) && spec in task.checks
    ensures DecidedOn(ledger, spec, f)
    ensures exists p :: p in f && f[p].Some?
  {
    assert Ledger.Report(ledger, checks, task, spec) == Ledger.PASS;
    var x := spec.execution;
    assert x.dependencies + x.absent <= paths by {
      forall p | p in x.dependencies + x.absent ensures p in Dependencies(task) {}
    }
    ObservedIsFrozen(checks.files, x.dependencies, paths);
    forall p | p in x.absent ensures p in f && f[p].None? {
      AbsentIsFrozen(checks.files, paths, p);
    }
    var d :| d in x.dependencies;
    assert Present(checks.files, d);
    var p :| p in checks.files && Covers(d, p);
    assert Within(paths, p);
    FingerprintAt(checks.files, paths, p);
  }

  lemma ObservedIsFrozen(fs: Files, dependencies: set<Paths.Path>, paths: set<Paths.Path>)
    requires dependencies <= paths
    ensures forall p | p in Ledger.Observed(fs, dependencies) ::
              p in Fingerprint(fs, paths) && Fingerprint(fs, paths)[p] == Some(Ledger.Observed(fs, dependencies)[p])
  {
    forall p | p in Ledger.Observed(fs, dependencies)
      ensures p in Fingerprint(fs, paths) && Fingerprint(fs, paths)[p] == Some(fs[p])
    {
      var d :| d in dependencies && Covers(d, p) && !Ledger.PassedOver(d, p);
      assert Within(paths, p);
      FingerprintAt(fs, paths, p);
    }
  }

  lemma AbsentIsFrozen(fs: Files, paths: set<Paths.Path>, p: Paths.Path)
    requires p in paths && !Present(fs, p)
    ensures p in Fingerprint(fs, paths) && Fingerprint(fs, paths)[p].None?
  {
  }

  /** In every run that completes, each of the root's checks was decided on the certified artifact itself, both when the
      review was opened and when the certificate was written, and the artifact holds a file. */
  lemma CompletedChecksSawTheArtifact(foreign: set<Agent>, cs: seq<Command>)
    returns (e: nat, k: nat)
    requires IsComplete(Run(Initial(foreign), cs))
    ensures var s := Run(Initial(foreign), cs); Certifies(s, e) && CertifiedBy(s.log, e, k)
    ensures var s := Run(Initial(foreign), cs);
            forall spec | spec in s.log[e].ledger.task.value.checks ::
              DecidedOn(s.log[k].ledger, spec, s.contract.value.snapshot) &&
              DecidedOn(s.log[e].ledger, spec, s.contract.value.snapshot)
    ensures var f := Run(Initial(foreign), cs).contract.value.snapshot; exists p :: p in f && f[p].Some?
  {
    var s := Run(Initial(foreign), cs);
    e, k := CompleteIsCertified(foreign, cs);
    var c, r := s.log[e], s.log[k];
    var task := c.ledger.task.value;
    forall spec | spec in task.checks
      ensures DecidedOn(r.ledger, spec, c.artifact) && DecidedOn(c.ledger, spec, c.artifact)
    {
      ChecksSawTheArtifact(r.ledger, r.checks, task, r.paths, c.artifact, spec);
      ChecksSawTheArtifact(c.ledger, c.checks, task, r.paths, c.artifact, spec);
    }
    ChecksSawTheArtifact(c.ledger, c.checks, task, r.paths, c.artifact, task.checks[0]);
  }
}
