/** What a report on record owes to the worker who submitted it: its words, its sources, and the certificate that rests
    on it. */
module CrewReports {
  import opened Files
  import opened Wrappers
  import opened Work
  import opened Crew
  import opened CrewInv
  import opened CrewCalls
  import opened CrewCertificate
  import Paths

  // ---------- one submission ----------

  /** The report says what was submitted, under the name of who submitted it. */
  ghost predicate AsDrafted(report: Report, a: Agent, d: Draft) {
    && report.agent == a && report.verdict == d.verdict && report.covers == d.covers && report.cited == d.cited
    && report.absent == d.absent && report.references.Keys == d.references
  }

  /** It keeps the cited files with their contents; a blocked one is later judged by all paths of its task, another by
      what it cites. */
  ghost predicate Sourced(report: Report, d: Draft, paths: set<Paths.Path>, files: Files) {
    && (forall p | p in d.references :: p in files && p in report.references && report.references[p] == files[p])
    && report.dependencies == (if d.verdict == BlockedReport then paths else d.references)
    && report.sources == Fingerprint(files, report.dependencies)
    && (report.lengthy <==> d.wordy || |d.references| + |d.cited| + |d.absent| > 4)
  }

  /** Where the agent of a ticket works: its own checkout if it has one, or the root's files. */
  ghost predicate WorksOn(s: State, t: Ticket, env: Env, files: Files) {
    t in s.work &&
    if s.work[t].workspace then files == (if t in env.checkouts then env.checkouts[t] else map[])
    else files == env.files
  }

  lemma WrittenAsDrafted(d: Draft, a: Agent, round: nat, paths: set<Paths.Path>, files: Files)
    requires forall p | p in d.references :: p in files
    ensures var report := Written(d, a, round, paths, files);
            AsDrafted(report, a, d) && Sourced(report, d, paths, files) && report.round == round
  {
  }

  /** What is filed says what was submitted, and keeps its sources as they are. */
  lemma FiledAsDrafted(s: State, a: Agent, d: Draft, env: Env, files: Files)
    requires ApplyWorker(s, SubmitReport(a, d, env)) != s
    ensures a in s.metas && s.contract.Some? && s.metas[a].ticket in s.work
    ensures var r, t := ApplyWorker(s, SubmitReport(a, d, env)), s.metas[a].ticket;
            && t in r.reports && AsDrafted(r.reports[t], a, d) && r.reports[t].round == s.contract.value.round
            && r == s.(reports := s.reports[t := r.reports[t]], log := r.log)
            && (WorksOn(s, t, env, files) ==> Sourced(r.reports[t], d, (set p | p in s.work[t].task.paths), files))
  {
    var t := s.metas[a].ticket;
    WrittenAsDrafted(d, a, s.contract.value.round, Scopes(s.work[t]), Ground(s, t, env));
  }

  /** The agent's last ticket is of the round and runs with it. */
  ghost predicate OnDuty(s: State, a: Agent) {
    && s.contract.Some? && a in s.metas
    && var t := s.metas[a].ticket;
       t.plan == s.contract.value.plan && t in s.work && s.work[t].stage == Running && s.work[t].agent == Some(a)
  }

  /** What is cited exists in the workspace, and what is called missing does not, both within the task; requirements are
      cited by their numbers; only a blocked report speaks of missing paths. */
  ghost predicate WellSourced(d: Draft, paths: seq<Paths.Path>, files: Files, requirements: nat) {
    && 1 <= |d.references| + |d.cited| + |d.absent| <= 100
    && (forall p | p in d.references :: p in files && exists o :: o in paths && Covers(o, p))
    && (forall p | p in d.absent :: (exists o :: o in paths && Covers(o, p)) && forall f | f in files :: !Covers(p, f))
    && (forall n | n in d.cited :: n < requirements) && (forall n | n in d.covers :: n < requirements)
    && (d.absent == {} || d.verdict == BlockedReport)
  }

  /** In review the artifact is as it was frozen, some file of it is cited, and slots 5 and 6 cover every requirement.
      */
  ghost predicate FitForReview(s: State, t: Ticket, d: Draft, env: Env)
    requires s.contract.Some?
  {
    var c := s.contract.value;
    && Fingerprint(env.files, c.reviewPaths) == c.snapshot && d.references != {}
    && (t.slot in {4, 5} ==> forall n | 0 <= n < |c.requirements| :: n in d.covers)
  }

  /** A report is taken exactly from an agent on duty, with sources in order. */
  lemma TakenExactly(s: State, a: Agent, d: Draft, env: Env, files: Files)
    requires a in s.metas && WorksOn(s, s.metas[a].ticket, env, files)
    ensures ApplyWorker(s, SubmitReport(a, d, env)) != s <==>
            && env.current && d.formed && OnDuty(s, a) && d.covers != {}
            && WellSourced(d, s.work[s.metas[a].ticket].task.paths, files, |s.contract.value.requirements|)
            && (s.contract.value.phase == REVIEW ==> FitForReview(s, s.metas[a].ticket, d, env))
  {
    var t := s.metas[a].ticket;
    var r := ApplyWorker(s, SubmitReport(a, d, env));
    assert r != s <==> MayReport(s, a, d, env) by {
      if MayReport(s, a, d, env) {
        assert |r.log| == |s.log| + 1;
      }
    }
    if s.contract.Some? {
      SourcesAgree(d, s.work[t], files, |s.contract.value.requirements|);
    }
  }

  lemma SourcesAgree(d: Draft, row: Row, files: Files, requirements: nat)
    ensures WellSourced(d, row.task.paths, files, requirements) <==>
            ReferencesOk(d, Scopes(row), files, requirements) && forall n | n in d.covers :: n < requirements
  {
    forall p ensures Within(Scopes(row), p) <==> exists o :: o in row.task.paths && Covers(o, p) {
      if o :| o in row.task.paths && Covers(o, p) {
        assert o in Scopes(row);
      }
    }
    forall p ensures Present(files, p) <==> !(forall f | f in files :: !Covers(p, f)) {
      if !(forall f | f in files :: !Covers(p, f)) {
        var f :| f in files && Covers(p, f);
        assert Present(files, p);
      }
    }
  }

  // ---------- whole runs ----------

  /** In this state the command submits the report, on the ticket its author had joined. */
  ghost predicate Submits(m: State, c: Command, t: Ticket, report: Report) {
    && c.ByWorker? && c.k.SubmitReport? && AsDrafted(report, c.k.agent, c.k.draft)
    && report.agent in m.metas && m.metas[report.agent].ticket == t
  }

  /** Some command of the run did. */
  ghost predicate Submitted(s: State, cs: seq<Command>, t: Ticket, report: Report) {
    exists n :: 0 <= n < |cs| && Submits(Run(s, cs[..n]), cs[n], t, report)
  }

  lemma NewEventIsDraft(s: State, c: Command, j: nat)
    requires |s.log| <= j < |Apply(s, c).log| && Apply(s, c).log[j].Reported?
    ensures var e := Apply(s, c).log[j]; Submits(s, c, e.ticket, e.report)
  {
    NewReportIsSubmitted(s, c, j);
    FiledAsDrafted(s, c.k.agent, c.k.draft, c.k.env, map[]);
  }

  lemma NewReportIsSubmitted(s: State, c: Command, j: nat)
    requires |s.log| <= j < |Apply(s, c).log| && Apply(s, c).log[j].Reported?
    ensures c.ByWorker? && c.k.SubmitReport? && ApplyWorker(s, c.k) != s
    ensures c.k.agent in s.metas &&
            var t := s.metas[c.k.agent].ticket;
            t in Apply(s, c).reports && Apply(s, c).log[j].ticket == t &&
            Apply(s, c).log[j].report == Apply(s, c).reports[t]
  {
    match c
    case AtHost(h) => HostSameRecord(s, h);
    case AtWait(w) => WaitSameRecord(s, w);
    case ByWorker(k) => WorkerReports(s, k);
    case ByRoot(r) => RootSameRecord(s, r);
    case AtRound(n) => RoundReportsNothing(s, n);
  }

  lemma WorkerReports(s: State, k: WorkerCommand)
    ensures if k.SubmitReport? && ApplyWorker(s, k) != s then
              k.agent in s.metas &&
              var r, t := ApplyWorker(s, k), s.metas[k.agent].ticket;
              t in r.reports && |r.log| == |s.log| + 1 && r.log[|s.log|].Reported? &&
              r.log[|s.log|].ticket == t && r.log[|s.log|].report == r.reports[t]
            else ApplyWorker(s, k).log == s.log
  {
  }

  lemma RoundReportsNothing(s: State, n: RoundCommand)
    ensures forall j | |s.log| <= j < |ApplyRound(s, n).log| :: !ApplyRound(s, n).log[j].Reported?
  {
  }

  lemma RunPrefix(s: State, cs: seq<Command>, n: nat)
    requires cs != [] && n < |cs|
    ensures n == 0 ==> Run(s, cs[..n]) == s
    ensures n > 0 ==> Run(s, cs[..n]) == Run(Apply(s, cs[0]), cs[1..][..n - 1])
  {
    if n > 0 {
      assert cs[..n][0] == cs[0] && cs[..n][1..] == cs[1..][..n - 1];
    }
  }

  lemma SubmittedLater(s: State, cs: seq<Command>, t: Ticket, report: Report)
    requires cs != [] && Submitted(Apply(s, cs[0]), cs[1..], t, report)
    ensures Submitted(s, cs, t, report)
  {
    var n :| 0 <= n < |cs[1..]| && Submits(Run(Apply(s, cs[0]), cs[1..][..n]), cs[1..][n], t, report);
    RunPrefix(s, cs, n + 1);
    assert cs[n + 1] == cs[1..][n];
    assert Submits(Run(s, cs[..n + 1]), cs[n + 1], t, report);
  }

  lemma SubmittedFirst(s: State, cs: seq<Command>, t: Ticket, report: Report)
    requires cs != [] && Submits(s, cs[0], t, report)
    ensures Submitted(s, cs, t, report)
  {
    RunPrefix(s, cs, 0);
    assert Submits(Run(s, cs[..0]), cs[0], t, report);
  }

  /** Every report that a run put on record was submitted in it, word for word, by its author. */
  lemma {:induction false} RecordedReportsAreSubmitted(s: State, cs: seq<Command>, j: nat)
    requires Inv(s) && |s.log| <= j < |Run(s, cs).log| && Run(s, cs).log[j].Reported?
    ensures var e := Run(s, cs).log[j]; Submitted(s, cs, e.ticket, e.report)
    decreases |cs|
  {
    if cs != [] {
      var m := Apply(s, cs[0]);
      ApplyKeeps(s, cs[0]);
      RunIsLater(m, cs[1..]);
      var e := Run(s, cs).log[j];
      if j < |m.log| {
        NewEventIsDraft(s, cs[0], j);
        SubmittedFirst(s, cs, e.ticket, e.report);
      } else {
        RecordedReportsAreSubmitted(m, cs[1..], j);
        SubmittedLater(s, cs, e.ticket, e.report);
      }
    }
  }

  /** In this state the command is a clear submission of the agent on this ticket, covering every requirement if the
      slot is independent. */
  ghost predicate SubmitsClear(m: State, c: Command, t: Ticket, a: Agent, requirements: nat) {
    && c.ByWorker? && c.k.SubmitReport? && c.k.agent == a && c.k.draft.verdict == Clear && c.k.draft.references != {}
    && (t.slot in {4, 5} ==> forall i | 0 <= i < requirements :: i in c.k.draft.covers)
    && a in m.metas && m.metas[a].ticket == t
  }

  ghost predicate SubmittedClear(s: State, cs: seq<Command>, t: Ticket, a: Agent, requirements: nat) {
    exists n :: 0 <= n < |cs| && SubmitsClear(Run(s, cs[..n]), cs[n], t, a, requirements)
  }

  lemma CertifiedIsSubmitted(foreign: set<Agent>, cs: seq<Command>, e: nat, k: nat, i: nat)
    requires var log := Run(Initial(foreign), cs).log;
             e < |log| && log[e].Certified? && CertifiedBy(log, e, k) && i < SLOTS
    ensures var c := Run(Initial(foreign), cs).log[e];
            SubmittedClear(Initial(foreign), cs, Ticket(c.plan, i), c.agents[i], |c.requirements|)
  {
    var s := Initial(foreign);
    var log := Run(s, cs).log;
    var c := log[e];
    var t := Ticket(c.plan, i);
    assert ClearReportBetween(log, k, e, t, c.agents[i], |c.requirements|, c.artifact);
    var j :| k < j < e && ReportsOn(log[j], t, |c.requirements|, c.artifact) &&
             log[j].report.verdict == Clear && log[j].report.agent == c.agents[i];
    InitialInv(foreign);
    RecordedReportsAreSubmitted(s, cs, j);
    ClearFromSubmitted(s, cs, log[j], t, c.artifact, |c.requirements|);
  }

  lemma ClearSubmits(m: State, c: Command, e: Event, t: Ticket, f: Snapshot, requirements: nat)
    requires ReportsOn(e, t, requirements, f) && e.report.verdict == Clear && Submits(m, c, t, e.report)
    ensures SubmitsClear(m, c, t, e.report.agent, requirements)
  {
    var p :| p in e.report.references;
    assert p in c.k.draft.references;
  }

  lemma ClearFromSubmitted(s: State, cs: seq<Command>, e: Event, t: Ticket, f: Snapshot, requirements: nat)
    requires ReportsOn(e, t, requirements, f) && e.report.verdict == Clear && Submitted(s, cs, t, e.report)
    ensures SubmittedClear(s, cs, t, e.report.agent, requirements)
  {
    var n :| 0 <= n < |cs| && Submits(Run(s, cs[..n]), cs[n], t, e.report);
    ClearSubmits(Run(s, cs[..n]), cs[n], e, t, f, requirements);
  }

  /** Behind a certificate stand six submissions of the run: each of the six agents itself called the artifact clear. */
  lemma CertificateIsSubmitted(foreign: set<Agent>, cs: seq<Command>, e: nat)
    requires e < |Run(Initial(foreign), cs).log| && Run(Initial(foreign), cs).log[e].Certified?
    ensures var c := Run(Initial(foreign), cs).log[e];
            && |c.agents| == SLOTS
            && forall i | 0 <= i < SLOTS ::
                 SubmittedClear(Initial(foreign), cs, Ticket(c.plan, i), c.agents[i], |c.requirements|)
  {
    InitialInv(foreign);
    RunRecords(Initial(foreign), cs);
    var log := Run(Initial(foreign), cs).log;
    var k :| CertifiedBy(log, e, k);
    forall i | 0 <= i < SLOTS
      ensures SubmittedClear(Initial(foreign), cs, Ticket(log[e].plan, i), log[e].agents[i], |log[e].requirements|)
    {
      CertifiedIsSubmitted(foreign, cs, e, k, i);
    }
  }

  // ---------- handback and delivery ----------

  /** A stop that is taken records its status for its agent, not yet integrated, and closes every call of the ticket; it
      is taken exactly while the ticket is reserved, running or returned. */
  lemma StopIsRecorded(s: State, a: Agent, status: Status)
    ensures var r := ApplyWorker(s, Return(a, status));
            if a in s.metas && s.metas[a].ticket in s.work &&
               s.work[s.metas[a].ticket].stage in {Reserved, Running, Returned}
            then
              var t := s.metas[a].ticket;
              && r.work == s.work[t := s.work[t].(stage := Returned, result := Some(Handback(status, Some(a), false)))]
              && |r.dispatches| == |s.dispatches|
              && (forall i | 0 <= i < |s.dispatches| :: r.dispatches[i] ==
                    if s.dispatches[i].payload.ticket == t then s.dispatches[i].(state := CallReturned)
                    else s.dispatches[i])
            else r == s
  {
  }

  /** A delivery makes the present reports of these slots count as read, and no others. */
  lemma DeliveredReports(s: State, slots: set<nat>, t: Ticket)
    ensures var r := ApplyRoot(s, Deliver(slots));
            if s.contract.Some? && t.plan == s.contract.value.plan && t.slot in slots && t in s.reports
            then t in r.delivered && r.delivered[t] == s.reports[t]
            else (t in r.delivered <==> t in s.delivered) && (t in s.delivered ==> r.delivered[t] == s.delivered[t])
  {
  }

  /** The report of the agent's ticket is the one it submitted. */
  ghost predicate OnRecord(r: State, a: Agent, d: Draft) {
    a in r.metas && r.metas[a].ticket in r.reports && AsDrafted(r.reports[r.metas[a].ticket], a, d)
  }

  lemma SubmittedIsOnRecord(s: State, a: Agent, d: Draft, env: Env)
    requires MayReport(s, a, d, env)
    ensures OnRecord(Submit(s, a, d, env), a, d)
  {
  }
}
