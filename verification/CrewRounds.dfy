/** The transitions between rounds: what each of them waits for, and what becomes of the old rows and of the contract.
    */
module CrewRounds {
  import opened Files
  import opened Wrappers
  import opened Paths
  import Plans
  import opened Texts
  import opened Capsules
  import opened Work
  import Ledger
  import LedgerTruth
  import opened Crew

  // ---------- what a transition waits for ----------

  /** Nothing is sent out or runs, and no check of the root. */
  ghost predicate NothingOpen(s: State, env: Env) {
    env.quiet && forall d | d in s.dispatches :: d.state in {CallReturned, CallFailed}
  }

  /** Six agents, all different. */
  ghost predicate SixAgents(s: State) {
    && |s.members| == 6 && (forall m | m in s.members :: m.agent != None)
    && (forall i, j | 0 <= i < 6 && 0 <= j < 6 && s.members[i].agent == s.members[j].agent :: i == j)
  }

  /** A report with objections, a blocked one and a lengthy one were read as they stand. */
  ghost predicate WasRead(s: State, t: Ticket) {
    t !in s.reports || (t in s.delivered && s.delivered[t] == s.reports[t]) ||
    (s.reports[t].verdict == Clear && !s.reports[t].lengthy)
  }

  /** The row ended with checked work of the slot's own agent: joined in this round, and what it wrote was tested and
      integrated. */
  ghost predicate EndedWell(s: State, slot: nat, c: Contract)
    requires slot < |s.members|
  {
    var t := Ticket(c.plan, slot);
    && t in s.work && s.work[t].stage in {Returned, Accepted} && s.members[slot].worker
    && match (s.work[t].result, s.members[slot].agent)
       case (Some(h), Some(a)) =>
         && h.worker == Some(a) && s.work[t].agent == Some(a) && a in s.metas && s.metas[a] == Meta(t, c.round)
         && (h.status == Status.Tested || h.status == Status.Analysis)
         && (s.work[t].task.kind == Implement ==> h.status == Status.Tested && h.integrated)
       case _ => false
  }

  /** The same agent reported on it in this round without being blocked, clearly if need be; in the first round its
      sources are unchanged. */
  ghost predicate ReportedWell(s: State, slot: nat, c: Contract, clear: bool, files: Files)
    requires slot < |s.members|
  {
    var t := Ticket(c.plan, slot);
    && t in s.reports && s.reports[t].round == c.round && s.members[slot].agent == Some(s.reports[t].agent)
    && s.reports[t].verdict in (if clear then {Clear} else {Clear, Issues})
    && (c.phase == PLAN ==>
          forall p | p in s.reports[t].references :: p in files && files[p] == s.reports[t].references[p])
  }

  /** Where the agent of a ticket works. */
  function GroundOf(s: State, t: Ticket, env: Env): Files {
    if t in s.work && s.work[t].workspace then if t in env.checkouts then env.checkouts[t] else map[] else env.files
  }

  /** One slot as a transition asks: the report read, and the row ended well; a repair asks of the row only that it is
      neither pending, reserved, running nor abandoned. */
  ghost predicate SlotOver(s: State, slot: nat, clear: bool, repair: bool, env: Env)
    requires s.contract.Some? && slot < |s.members|
  {
    var c := s.contract.value;
    var t := Ticket(c.plan, slot);
    && t in s.work && WasRead(s, t)
    && if repair then s.work[t].stage in {Returned, Accepted, Failed}
       else EndedWell(s, slot, c) && ReportedWell(s, slot, c, clear, GroundOf(s, t, env))
  }

  /** The round is over: nothing goes on, six agents are bound, and every slot is over. */
  ghost predicate RoundOver(s: State, clear: bool, repair: bool, env: Env)
    requires s.contract.Some?
  {
    NothingOpen(s, env) && SixAgents(s) && forall i | 0 <= i < 6 :: SlotOver(s, i, clear, repair, env)
  }

  lemma IdleIsQuiet(s: State, env: Env)
    ensures Idle(s, env) <==> NothingOpen(s, env)
  {
    forall d | d in s.dispatches && !AnyLive(s) ensures d.state in {CallReturned, CallFailed} {
      assert !Outstanding(d.state);
    }
    if AnyLive(s) {
      var i :| 0 <= i < |s.dispatches| && Outstanding(s.dispatches[i].state);
      assert s.dispatches[i] in s.dispatches;
    }
  }

  lemma SlotIsOver(s: State, slot: nat, clear: bool, repair: bool, env: Env)
    requires s.contract.Some? && slot < 6 && |s.members| == 6
    ensures SlotOver(s, slot, clear, repair, env) <==>
            HasRow(s, slot) && DetailsRead(s, Now(s, slot)) && RowSettled(s, slot, clear, repair, env)
  {
  }

  lemma BoundIsSix(s: State)
    ensures AllBound(s) <==> SixAgents(s)
  {
    if AllBound(s) {
      forall m | m in s.members ensures m.agent != None {
        var k :| 0 <= k < |s.members| && s.members[k] == m;
      }
    }
    if SixAgents(s) {
      forall k | 0 <= k < SLOTS ensures s.members[k].agent.Some? {
        assert s.members[k] in s.members;
      }
    }
  }

  lemma WhenOver(s: State, clear: bool, repair: bool, env: Env)
    requires s.contract.Some?
    ensures AllReturned(s, clear, repair, env) <==> RoundOver(s, clear, repair, env)
  {
    IdleIsQuiet(s, env);
    BoundIsSix(s);
    if |s.members| == 6 {
      forall i | 0 <= i < 6
        ensures SlotOver(s, i, clear, repair, env) <==>
                HasRow(s, i) && DetailsRead(s, Now(s, i)) && RowSettled(s, i, clear, repair, env)
      {
        SlotIsOver(s, i, clear, repair, env);
      }
    }
  }

  /** The root's own evidence: the agreed requirements proven by checks that all look at the outputs and at everything
      that was changed; at the end with a standing claim. */
  ghost predicate RootProves(c: Contract, env: Env, finish: bool) {
    var e := env.evidence;
    && env.quiet && e.drained && e.whole && LedgerTruth.ProvenNow(e.ledger, Checks(env))
    && e.ledger.task.value.requirements == c.requirements
    && (forall p | p in c.outputPaths || p in e.changed :: Looked(e.ledger.task.value, p))
    && (finish ==> e.finished && e.current && Claimed(e.ledger))
  }

  /** Some check depends on the path or on a directory above it, or expects it to be absent. */
  ghost predicate Looked(task: Ledger.Task, p: Path) {
    exists c, d :: c in task.checks && (d in c.execution.dependencies || d in c.execution.absent) && Covers(d, p)
  }

  /** The last claim is of tested completion, for the present task. */
  ghost predicate Claimed(l: Ledger.State) {
    l.finish.Some? && l.finish.value.kind == Ledger.Tested && l.finish.value.valid && l.finish.value.task == l.task
  }

  lemma LookedAt(task: Ledger.Task, p: Path)
    ensures Looked(task, p) <==> Within(Dependencies(task), p)
  {
    if Looked(task, p) {
      var c, d :| c in task.checks && (d in c.execution.dependencies || d in c.execution.absent) && Covers(d, p);
      assert d in c.execution.dependencies + c.execution.absent;
    }
    if Within(Dependencies(task), p) {
      var d :| d in Dependencies(task) && Covers(d, p);
      var c :| c in task.checks && d in c.execution.dependencies + c.execution.absent;
    }
  }

  lemma AllLooked(task: Ledger.Task, targets: set<Path>)
    ensures AllWithin(Dependencies(task), targets) <==> forall p | p in targets :: Looked(task, p)
  {
    forall p ensures Looked(task, p) <==> Within(Dependencies(task), p) {
      LookedAt(task, p);
    }
  }

  lemma WhenClaimed(l: Ledger.State, checks: Ledger.Env)
    requires Ledger.Passed(l, checks)
    ensures TestedClaim(l, checks) <==> Claimed(l)
  {
  }

  lemma WhenProven(c: Contract, env: Env, finish: bool)
    ensures RootEvidence(c, env, finish) <==> RootProves(c, env, finish)
  {
    var l := env.evidence.ledger;
    LedgerTruth.PassedIsProven(l, Checks(env));
    if Ledger.Passed(l, Checks(env)) {
      WhenClaimed(l, Checks(env));
      AllLooked(l.task.value, set p | p in c.outputPaths);
      AllLooked(l.task.value, env.evidence.changed);
      assert forall p :: p in c.outputPaths <==> p in set q | q in c.outputPaths;
    }
  }

  // ---------- rows old and new ----------

  /** Six fresh rows, pending, for nobody, of a plan of their own. */
  ghost predicate FreshSix(r: State, plan: nat, tasks: seq<Task>) {
    |tasks| == 6 && forall i | 0 <= i < 6 ::
      Ticket(plan, i) in r.work && r.work[Ticket(plan, i)] == Row(tasks[i], Pending, None, false, None)
  }

  /** Beside the six there are only the rows there were. */
  ghost predicate NoOtherRows(s: State, r: State, plan: nat) {
    forall t :: t in r.work <==> t in s.work || (t.plan == plan && t.slot < 6)
  }

  /** An unfinished row of the round that is replaced is abandoned. */
  ghost predicate Dropped(s: State, r: State, t: Ticket, plan: nat) {
    t in s.work && t in r.work &&
    r.work[t] == (if t.plan == plan && s.work[t].stage in {Pending, Reserved, Running, Returned, Failed}
                  then s.work[t].(stage := Abandoned) else s.work[t])
  }

  /** Every row of the round that is over is accepted; a repair abandons one without checked work, without a clear
      report or with work of a writer that was not integrated. */
  ghost predicate Taken(s: State, r: State, t: Ticket, plan: nat, repair: bool) {
    t in s.work && t in r.work &&
    if t.plan != plan || t.slot >= 6 then r.work[t] == s.work[t]
    else if !repair || FitToKeep(s, t) then r.work[t] == s.work[t].(stage := Accepted)
    else r.work[t] == s.work[t].(stage := Abandoned)
  }

  ghost predicate FitToKeep(s: State, t: Ticket)
    requires t in s.work
  {
    && t in s.reports && s.reports[t].verdict == Clear
    && match s.work[t].result
       case None => false
       case Some(h) => (h.status == Status.Analysis || h.status == Status.Tested) &&
                       (h.integrated || s.work[t].task.kind != Implement)
  }

  /** A round under contract c begins on the rows of m: six fresh rows, and all others as they were. */
  ghost predicate Begun(m: State, r: State, c: Contract, tasks: seq<Task>) {
    && r == m.(contract := Some(c.(plan := m.plans)), plans := m.plans + 1, work := r.work)
    && FreshSix(r, m.plans, tasks) && NoOtherRows(m, r, m.plans)
    && forall t | t in m.work :: t in r.work && r.work[t] == m.work[t]
  }

  lemma NewRoundIsFresh(m: State, c: Contract, tasks: seq<Task>)
    requires |tasks| == SLOTS && forall t | t in m.work :: t.plan < m.plans
    ensures Begun(m, NewRound(m, c, tasks), c, tasks)
  {
  }

  lemma RoundIsTaken(s: State, repair: bool, t: Ticket)
    requires s.contract.Some? && t in s.work
    ensures Taken(s, AcceptRound(s, repair), t, s.contract.value.plan, repair)
  {
  }

  lemma ClosedDrops(s: State, t: Ticket)
    requires s.contract.Some? && t in s.work
    ensures Dropped(s, Closed(s), t, s.contract.value.plan)
  {
  }

  // ---------- the start ----------

  /** The terms of a crew: texts and lists in order; every path below the root and no control file; inputs that are not
      optional exist; nothing is written in or around what is protected, and nothing worked on either. */
  ghost predicate InOrder(terms: Terms, fs: Files) {
    TextOk(terms.goal, 12000) && RequirementsOk(terms.requirements) && ListOk(terms.evidencePaths) &&
    ListOk(terms.outputPaths) && RolesOk(terms, fs)
  }

  /** One to a hundred different paths below the root. */
  ghost predicate ListOk(paths: seq<Path>) {
    Plans.ListOk(paths) && forall p | p in paths :: BelowRoot(p)
  }

  ghost predicate BelowRoot(p: Path) {
    p != "." && !(p != "" && p[|p| - 1] == '/') && Split(p)[0] != ".git" && Split(p)[0] != ".codex" &&
    Split(p)[0] != ".agents"
  }

  lemma ListIsOk(paths: seq<Path>)
    ensures Plans.PathsOk(paths) && (forall p | p in paths :: Narrow(p)) <==> ListOk(paths)
  {
    forall p ensures Narrow(p) <==> BelowRoot(p) {}
    Plans.OnceIsDistinct(paths);
  }

  /** One to 64 requirements, all different texts. */
  ghost predicate RequirementsOk(rs: seq<string>) {
    0 < |rs| < 65 && forall i, j | 0 <= i < |rs| && 0 <= j < |rs| :: TextOk(rs[i], 3000) && (rs[i] == rs[j] ==> i == j)
  }

  lemma RequirementsAreOk(rs: seq<string>)
    ensures RequirementsOk(rs) <==>
            1 <= |rs| <= 64 && TextsOk(rs, 3000) && forall i, j | 0 <= i < j < |rs| :: rs[i] != rs[j]
  {
  }

  /** The roles of the registry: inputs exist unless they are optional, and what is protected is left alone. */
  ghost predicate RolesOk(terms: Terms, fs: Files) {
    && |terms.optional| <= 100 && |terms.protected| <= 100 && |terms.working| <= 100
    && (forall p | p in terms.optional || p in terms.protected || p in terms.working :: BelowRoot(p))
    && (forall p | p in terms.evidencePaths && p !in terms.optional :: exists f :: f in fs && Covers(p, f))
    && (forall p, o | p in terms.protected && (o in terms.outputPaths || o in terms.working) ::
          !Covers(p, o) && !Covers(o, p))
  }

  lemma RolesAreOk(terms: Terms, fs: Files)
    ensures Registered(terms, fs) <==> RolesOk(terms, fs)
  {
    forall p ensures Narrow(p) <==> BelowRoot(p) {}
    forall p ensures Present(fs, p) <==> exists f :: f in fs && Covers(p, f) {}
    forall p, o ensures Apart(p, o) <==> !Covers(p, o) && !Covers(o, p) {}
  }

  lemma TermsAreInOrder(terms: Terms, fs: Files)
    ensures TermsOk(terms, fs) <==> InOrder(terms, fs)
  {
    ListIsOk(terms.evidencePaths);
    ListIsOk(terms.outputPaths);
    RequirementsAreOk(terms.requirements);
    RolesAreOk(terms, fs);
  }

  /** No row of the round is reserved or running. */
  ghost predicate NobodyWorks(s: State) {
    s.contract.Some? ==> forall i | 0 <= i < 6 && Ticket(s.contract.value.plan, i) in s.work ::
      s.work[Ticket(s.contract.value.plan, i)].stage !in {Reserved, Running}
  }

  /** In the round that begins, six look at the same paths, each through its own lens. */
  ghost predicate SixLook(r: State, plan: nat, of: Lenses, paths: seq<Path>) {
    forall i | 0 <= i < 6 :: Ticket(plan, i) in r.work && r.work[Ticket(plan, i)] ==
      Row(Task(SlotName(i), Investigate, paths, [], Lens(of, i)), Pending, None, false, None)
  }

  lemma LensesLook(r: State, plan: nat, of: Lenses, paths: seq<Path>)
    requires FreshSix(r, plan, LensTasks(of, paths))
    ensures SixLook(r, plan, of, paths)
  {
  }

  /** Nothing is under way, the terms are in order and fit, and over an unfinished crew this is a revision. */
  ghost predicate Startable(s: State, revise: bool, terms: Terms, free: bool, env: Env) {
    && InOrder(terms, env.files) && StartFits(terms) && NothingOpen(s, env) && NobodyWorks(s)
    && (match s.contract case None => free case Some(c) => c.phase == COMPLETE || revise)
  }

  lemma SettledIsNobody(s: State)
    ensures Settled(s) <==> NobodyWorks(s)
  {
    if s.contract.Some? {
      forall i: nat ensures Now(s, i) == Ticket(s.contract.value.plan, i) {}
    }
  }

  lemma WhenStartable(s: State, revise: bool, terms: Terms, free: bool, env: Env)
    ensures MayStart(s, revise, terms, free, env) <==> Startable(s, revise, terms, free, env)
  {
    TermsAreInOrder(terms, env.files);
    IdleIsQuiet(s, env);
    SettledIsNobody(s);
    FitIsLight(terms.goal, terms.requirements, None, LensTasks(PlanLenses, terms.evidencePaths));
    if InOrder(terms, env.files) {
      LensesFormPlan(terms);
    }
  }

  /** A crew starts, or starts over, exactly then. */
  lemma StartIsGranted(s: State, revise: bool, terms: Terms, free: bool, env: Env)
    ensures ApplyRound(s, StartCrew(revise, terms, free, env)) != s <==> Startable(s, revise, terms, free, env)
  {
    WhenStartable(s, revise, terms, free, env);
    if MayStart(s, revise, terms, free, env) {
      assert ApplyRound(s, StartCrew(revise, terms, free, env)).plans == s.plans + 1;
    }
  }

  ghost predicate StartFits(terms: Terms) {
    Light(terms.goal, terms.requirements, None, LensTasks(PlanLenses, terms.evidencePaths))
  }

  /** No capsule is longer than 22000. */
  ghost predicate Light(goal: string, requirements: seq<string>, decision: Option<string>, tasks: seq<Task>) {
    forall t | t in tasks :: CapsuleSize(goal, requirements, decision, t) <= 22000
  }

  lemma FitIsLight(goal: string, requirements: seq<string>, decision: Option<string>, tasks: seq<Task>)
    ensures CapsulesFit(goal, requirements, decision, tasks) <==> Light(goal, requirements, decision, tasks)
  {
    forall i | 0 <= i < |tasks| ensures tasks[i] in tasks {}
  }

  lemma LensesFormPlan(terms: Terms)
    requires ListOk(terms.evidencePaths)
    ensures Plans.Admissible(LensTasks(PlanLenses, terms.evidencePaths))
  {
    var tasks := LensTasks(PlanLenses, terms.evidencePaths);
    assert Plans.DistinctTasks(tasks) by {
      forall i, j | 0 <= i < j < 6 ensures tasks[i].id != tasks[j].id {
        assert tasks[i].id[1] != tasks[j].id[1];
      }
    }
    ListIsOk(terms.evidencePaths);
    Plans.IndependentTasksAdmissible(tasks);
  }

  ghost predicate StartsAs(s: State, r: State, terms: Terms) {
    && r == s.(contract := r.contract, plans := s.plans + 1, work := r.work)
    && r.contract == Some(Contract(PLAN, 1, s.plans, terms.goal, None, terms.requirements, terms.evidencePaths,
                                   terms.outputPaths, {}, map[], None))
    && NoOtherRows(s, r, s.plans) && SixLook(r, s.plans, PlanLenses, terms.evidencePaths)
  }

  ghost predicate KeptOrDropped(s: State, r: State, t: Ticket) {
    t in s.work && t in r.work && if s.contract.Some? then Dropped(s, r, t, s.contract.value.plan)
                                  else r.work[t] == s.work[t]
  }

  lemma ClosedKeeps(s: State, t: Ticket)
    requires t in s.work
    ensures KeptOrDropped(s, Closed(s), t)
  {
    if s.contract.Some? {
      ClosedDrops(s, t);
    }
  }

  lemma SameClosed(s: State)
    ensures var m := Closed(s); m == s.(work := m.work) && m.work.Keys == s.work.Keys
  {
  }

  /** It agrees on the terms as they are, in the planning phase of round 1, and six look into the evidence; unfinished
      rows of the crew before are abandoned. */
  lemma StartBegins(s: State, revise: bool, terms: Terms, free: bool, env: Env, t: Ticket)
    requires forall t | t in s.work :: t.plan < s.plans
    requires ApplyRound(s, StartCrew(revise, terms, free, env)) != s
    ensures var r := ApplyRound(s, StartCrew(revise, terms, free, env));
            StartsAs(s, r, terms) && (t in s.work ==> KeptOrDropped(s, r, t))
  {
    SameClosed(s);
    NewRoundIsFresh(Closed(s), Agreed(terms), LensTasks(PlanLenses, terms.evidencePaths));
    if t in s.work {
      ClosedKeeps(s, t);
    }
    BegunStarts(s, Closed(s), ApplyRound(s, StartCrew(revise, terms, free, env)), terms, t);
  }

  lemma BegunStarts(s: State, m: State, r: State, terms: Terms, t: Ticket)
    requires m == s.(work := m.work) && m.work.Keys == s.work.Keys
    requires Begun(m, r, Agreed(terms), LensTasks(PlanLenses, terms.evidencePaths))
    requires t in s.work ==> KeptOrDropped(s, m, t)
    ensures StartsAs(s, r, terms) && (t in s.work ==> KeptOrDropped(s, r, t))
  {
    LensesLook(r, s.plans, PlanLenses, terms.evidencePaths);
    assert forall t :: t in m.work <==> t in s.work;
  }

  // ---------- execution and repair ----------

  /** A plan for six: one task a slot, by name and with a description of its own; writers only in the first four slots,
      and only at or below the agreed outputs. */
  ghost predicate PlanOfSix(c: Contract, tasks: seq<Task>) {
    |tasks| == 6 && Plans.Admissible(tasks) && forall i | 0 <= i < 6 :: SlotsTask(c, tasks[i], i)
  }

  ghost predicate SlotsTask(c: Contract, t: Task, slot: nat) {
    && t.id == SlotName(slot) && t.brief.Given?
    && (t.kind == Implement ==> slot < 4 && forall p | p in t.paths :: exists o :: o in c.outputPaths && Covers(o, p))
  }

  lemma PlanIsAssigned(s: State, tasks: seq<Task>)
    requires s.contract.Some?
    ensures TasksOk(s, tasks) <==> PlanOfSix(s.contract.value, tasks)
  {
    if |tasks| == 6 {
      forall i | 0 <= i < 6
        ensures SlotsTask(s.contract.value, tasks[i], i) <==> MeansSlot(s.contract.value, tasks[i], i)
      {
        WithinList(s.contract.value.outputPaths, tasks[i].paths);
      }
      assert Assigned(s.contract.value, tasks) <==>
             forall i | 0 <= i < 6 :: MeansSlot(s.contract.value, tasks[i], i);
    }
  }

  ghost predicate MeansSlot(c: Contract, t: Task, slot: nat) {
    && t.id == SlotName(slot) && t.brief.Given? && (Independent(slot) ==> t.kind != Implement)
    && (t.kind == Implement ==> AllWithin(set p | p in c.outputPaths, set p | p in t.paths))
  }

  lemma WithinList(scopes: seq<Path>, targets: seq<Path>)
    ensures AllWithin(set p | p in scopes, set p | p in targets) <==>
            forall p | p in targets :: exists o :: o in scopes && Covers(o, p)
  {
    var a, b := set p | p in scopes, set p | p in targets;
    forall p ensures Within(a, p) <==> exists o :: o in scopes && Covers(o, p) {
      if o :| o in scopes && Covers(o, p) {
        assert o in a;
      }
    }
    if AllWithin(a, b) {
      forall p | p in targets ensures exists o :: o in scopes && Covers(o, p) {
        assert p in b;
      }
    }
  }

  /** Execution follows the planning round, a repair an execution or a review; each when the round is over, with a
      decision and a plan for six that fits into the capsules. */
  ghost predicate Executable(s: State, repair: bool, decision: string, tasks: seq<Task>, env: Env) {
    && s.contract.Some? && env.current && TextOk(decision, 8000)
    && s.contract.value.phase in (if repair then {EXECUTE, REVIEW} else {PLAN})
    && PlanOfSix(s.contract.value, tasks) && RoundOver(s, false, repair, env)
    && Light(s.contract.value.goal, s.contract.value.requirements, Some(decision), tasks)
  }

  lemma WhenExecutable(s: State, repair: bool, decision: string, tasks: seq<Task>, env: Env)
    ensures MayExecute(s, repair, decision, tasks, env) <==> Executable(s, repair, decision, tasks, env)
  {
    if s.contract.Some? {
      PlanIsAssigned(s, tasks);
      FitIsLight(s.contract.value.goal, s.contract.value.requirements, Some(decision), tasks);
      WhenOver(s, false, repair, env);
    }
  }

  /** The next round begins exactly then. */
  lemma ExecuteIsGranted(s: State, repair: bool, decision: string, tasks: seq<Task>, env: Env)
    ensures ApplyRound(s, ExecuteCrew(repair, decision, tasks, env)) != s <==>
            Executable(s, repair, decision, tasks, env)
  {
    WhenExecutable(s, repair, decision, tasks, env);
    if MayExecute(s, repair, decision, tasks, env) {
      assert ApplyRound(s, ExecuteCrew(repair, decision, tasks, env)).plans == s.plans + 1;
    }
  }

  ghost predicate ExecutesAs(s: State, r: State, decision: string, tasks: seq<Task>)
    requires s.contract.Some?
  {
    var c := s.contract.value;
    && r == s.(contract := r.contract, plans := s.plans + 1, work := r.work)
    && r.contract == Some(Contract(EXECUTE, c.round + 1, s.plans, c.goal, Some(decision), c.requirements,
                                   c.evidencePaths, c.outputPaths, c.reviewPaths, c.snapshot, c.reviewTask))
    && FreshSix(r, s.plans, tasks) && NoOtherRows(s, r, s.plans)
  }

  lemma SameAccepted(s: State, repair: bool)
    requires s.contract.Some?
    ensures var m := AcceptRound(s, repair); m == s.(work := m.work) && m.work.Keys == s.work.Keys
  {
  }

  /** The next round executes the tasks under the same agreement. */
  lemma ExecuteBegins(s: State, repair: bool, decision: string, tasks: seq<Task>, env: Env, t: Ticket)
    requires forall t | t in s.work :: t.plan < s.plans
    requires ApplyRound(s, ExecuteCrew(repair, decision, tasks, env)) != s
    ensures s.contract.Some?
    ensures var r := ApplyRound(s, ExecuteCrew(repair, decision, tasks, env));
            ExecutesAs(s, r, decision, tasks) && (t in s.work ==> Taken(s, r, t, s.contract.value.plan, repair))
  {
    var m := AcceptRound(s, repair);
    SameAccepted(s, repair);
    NewRoundIsFresh(m, Executing(s.contract.value, decision), tasks);
    if t in s.work {
      RoundIsTaken(s, repair, t);
    }
    BegunExecutes(s, m, ApplyRound(s, ExecuteCrew(repair, decision, tasks, env)), decision, tasks);
  }

  lemma BegunExecutes(s: State, m: State, r: State, decision: string, tasks: seq<Task>)
    requires m == s.(work := m.work) && m.work.Keys == s.work.Keys && s.contract.Some?
    requires Begun(m, r, Executing(s.contract.value, decision), tasks)
    ensures ExecutesAs(s, r, decision, tasks)
  {
    assert forall t :: t in m.work <==> t in s.work;
  }

  // ---------- review ----------

  /** What is inspected: the evidence, the outputs, and all that checks depend on or expect to be absent. */
  ghost predicate IsReviewed(c: Contract, task: Ledger.Task, p: Path) {
    p in c.evidencePaths || p in c.outputPaths ||
    exists k :: k in task.checks && (p in k.execution.dependencies || p in k.execution.absent)
  }

  /** A review of this task is under way, on the artifact as it is. */
  ghost predicate StillStands(s: State, env: Env)
    requires s.contract.Some?
  {
    s.contract.value.phase == REVIEW && s.contract.value.reviewTask == env.evidence.ledger.task &&
    s.contract.value.snapshot == Fingerprint(env.files, s.contract.value.reviewPaths)
  }

  lemma ReviewedPaths(c: Contract, task: Ledger.Task, p: Path)
    ensures p in ReviewPaths(c, task) <==> IsReviewed(c, task, p)
  {
    if IsReviewed(c, task, p) && p !in c.evidencePaths && p !in c.outputPaths {
      var k :| k in task.checks && (p in k.execution.dependencies || p in k.execution.absent);
      assert p in k.execution.dependencies + k.execution.absent;
    }
  }

  /** A review follows an execution, or a review whose artifact or task has changed, when the round is over and the
      root's checks prove the requirements. */
  ghost predicate ReviewDue(s: State, decision: string, order: seq<Path>, env: Env) {
    && s.contract.Some? && env.current && TextOk(decision, 8000) && s.contract.value.phase in {EXECUTE, REVIEW}
    && RootProves(s.contract.value, env, false) && !StillStands(s, env) && RoundOver(s, false, false, env)
    && (forall p :: p in order <==> IsReviewed(s.contract.value, env.evidence.ledger.task.value, p))
    && Plans.Admissible(LensTasks(ReviewLenses, order))
    && Light(s.contract.value.goal, s.contract.value.requirements, Some(decision), LensTasks(ReviewLenses, order))
  }

  lemma WhenReviewDue(s: State, decision: string, order: seq<Path>, env: Env)
    ensures MayReview(s, decision, order, env) <==> ReviewDue(s, decision, order, env)
  {
    if s.contract.Some? {
      WhenOver(s, false, false, env);
      WhenProven(s.contract.value, env, false);
      FitIsLight(s.contract.value.goal, s.contract.value.requirements, Some(decision), LensTasks(ReviewLenses, order));
      if env.evidence.ledger.task.Some? {
        forall p ensures p in ReviewPaths(s.contract.value, env.evidence.ledger.task.value) <==>
                         IsReviewed(s.contract.value, env.evidence.ledger.task.value, p) {
          ReviewedPaths(s.contract.value, env.evidence.ledger.task.value, p);
        }
      }
    }
  }

  lemma OpenedIsNew(s: State, decision: string, order: seq<Path>, env: Env)
    requires s.contract.Some? && env.evidence.ledger.task.Some?
    ensures OpenReview(s, decision, order, env).plans == s.plans + 1
  {
  }

  lemma ReviewChanges(s: State, decision: string, order: seq<Path>, env: Env)
    ensures Review(s, decision, order, env) != s <==> MayReview(s, decision, order, env)
  {
    if MayReview(s, decision, order, env) {
      OpenedIsNew(s, decision, order, env);
    }
  }

  /** It begins exactly then. */
  lemma ReviewIsGranted(s: State, decision: string, order: seq<Path>, env: Env)
    ensures ApplyRound(s, ReviewCrew(decision, order, env)) != s <==> ReviewDue(s, decision, order, env)
  {
    WhenReviewDue(s, decision, order, env);
    ReviewChanges(s, decision, order, env);
  }

  ghost predicate ReviewsAs(s: State, r: State, decision: string, order: seq<Path>, env: Env)
    requires s.contract.Some?
  {
    var c := s.contract.value;
    var paths := set p | p in order;
    && r == s.(contract := r.contract, plans := s.plans + 1, work := r.work, log := r.log)
    && r.contract == Some(Contract(REVIEW, c.round + 1, s.plans, c.goal, Some(decision), c.requirements,
                                   c.evidencePaths, c.outputPaths, paths, Fingerprint(env.files, paths),
                                   env.evidence.ledger.task))
    && NoOtherRows(s, r, s.plans) && SixLook(r, s.plans, ReviewLenses, order)
  }

  lemma OpenedIsBegun(s: State, decision: string, order: seq<Path>, env: Env)
    requires s.contract.Some? && env.evidence.ledger.task.Some? && forall t | t in s.work :: t.plan < s.plans
    ensures var m, r := AcceptRound(s, false), OpenReview(s, decision, order, env);
            Begun(m, r.(log := s.log), Frozen(s.contract.value, decision, env), LensTasks(ReviewLenses, order))
  {
    SameAccepted(s, false);
    NewRoundIsFresh(AcceptRound(s, false), Frozen(s.contract.value, decision, env), LensTasks(ReviewLenses, order));
  }

  lemma ReviewIsOpened(s: State, decision: string, order: seq<Path>, env: Env)
    requires ApplyRound(s, ReviewCrew(decision, order, env)) != s
    ensures MayReview(s, decision, order, env)
    ensures ApplyRound(s, ReviewCrew(decision, order, env)) == OpenReview(s, decision, order, env)
  {
  }

  lemma OpenedReviews(s: State, decision: string, order: seq<Path>, env: Env)
    requires s.contract.Some? && env.evidence.ledger.task.Some? && forall t | t in s.work :: t.plan < s.plans
    requires forall p :: p in order <==> p in ReviewPaths(s.contract.value, env.evidence.ledger.task.value)
    ensures ReviewsAs(s, OpenReview(s, decision, order, env), decision, order, env)
  {
    var r := OpenReview(s, decision, order, env);
    SameAccepted(s, false);
    OpenedIsBegun(s, decision, order, env);
    BegunReviews(s, AcceptRound(s, false), r.(log := s.log), decision, order, env);
  }

  lemma OpenedTakes(s: State, decision: string, order: seq<Path>, env: Env, t: Ticket)
    requires s.contract.Some? && env.evidence.ledger.task.Some? && t in s.work
    requires forall t | t in s.work :: t.plan < s.plans
    ensures Taken(s, OpenReview(s, decision, order, env), t, s.contract.value.plan, false)
  {
    SameAccepted(s, false);
    OpenedIsBegun(s, decision, order, env);
    RoundIsTaken(s, false, t);
  }

  /** Six inspect what is frozen as it is now, under the root's present task. */
  lemma ReviewBegins(s: State, decision: string, order: seq<Path>, env: Env, t: Ticket)
    requires forall t | t in s.work :: t.plan < s.plans
    requires ApplyRound(s, ReviewCrew(decision, order, env)) != s
    ensures s.contract.Some? && env.evidence.ledger.task.Some?
    ensures var r := ApplyRound(s, ReviewCrew(decision, order, env));
            ReviewsAs(s, r, decision, order, env) && (t in s.work ==> Taken(s, r, t, s.contract.value.plan, false))
  {
    ReviewIsOpened(s, decision, order, env);
    OpenedReviews(s, decision, order, env);
    if t in s.work {
      OpenedTakes(s, decision, order, env, t);
    }
  }

  lemma BegunReviews(s: State, m: State, r: State, decision: string, order: seq<Path>, env: Env)
    requires m == s.(work := m.work) && m.work.Keys == s.work.Keys && s.contract.Some?
    requires env.evidence.ledger.task.Some?
    requires Begun(m, r, Frozen(s.contract.value, decision, env), LensTasks(ReviewLenses, order))
    requires forall p :: p in order <==> p in ReviewPaths(s.contract.value, env.evidence.ledger.task.value)
    ensures ReviewsAs(s, r, decision, order, env)
  {
    LensesLook(r, s.plans, ReviewLenses, order);
    assert ReviewPaths(s.contract.value, env.evidence.ledger.task.value) == set p | p in order;
    assert forall t :: t in m.work <==> t in s.work;
  }

  // ---------- completion ----------

  /** A crew completes out of a review of the artifact and the task as they are, when the round is over with six clear
      reports and the root's checks prove the requirements and stand by a tested claim. */
  lemma CompletionIsGranted(s: State, decision: string, env: Env)
    ensures ApplyRound(s, CompleteCrew(decision, env)) != s <==>
            && s.contract.Some? && env.current && TextOk(decision, 8000) && s.contract.value.phase == REVIEW
            && RootProves(s.contract.value, env, true) && StillStands(s, env) && RoundOver(s, true, false, env)
  {
    if s.contract.Some? {
      WhenOver(s, true, false, env);
      WhenProven(s.contract.value, env, true);
    }
    if MayFinish(s, decision, env) {
      assert ApplyRound(s, CompleteCrew(decision, env)).contract.value.phase == COMPLETE;
    }
  }

  /** Its rows are accepted, and the contract is complete and else as it was. */
  lemma CompletionEnds(s: State, decision: string, env: Env, t: Ticket)
    requires ApplyRound(s, CompleteCrew(decision, env)) != s
    ensures s.contract.Some?
    ensures var r := ApplyRound(s, CompleteCrew(decision, env));
            && r == s.(contract := Some(s.contract.value.(phase := COMPLETE, decision := Some(decision))),
                       work := r.work, log := r.log)
            && r.work.Keys == s.work.Keys && (t in s.work ==> Taken(s, r, t, s.contract.value.plan, false))
  {
    if t in s.work {
      RoundIsTaken(s, false, t);
    }
  }

  // ---------- rows one by one ----------

  /** The root may write: in execution, with six agents bound, and the row's report read. */
  ghost predicate RootMayWrite(s: State, t: Ticket, env: Env) {
    && s.contract.Some? && env.current && s.contract.value.phase == EXECUTE
    && (forall m | m in s.members :: m.agent != None)
    && t.plan == s.contract.value.plan && t.slot < 6 && t in s.work && WasRead(s, t)
  }

  /** A writer's row that was handed back as tested by a worker whose last ticket it is. */
  ghost predicate TestedWork(s: State, t: Ticket) {
    && t in s.work && s.work[t].stage == Returned && s.work[t].task.kind == Implement
    && match s.work[t].result
       case None => false
       case Some(h) => h.status == Status.Tested && h.worker.Some? && h.worker.value in s.metas &&
                       s.metas[h.worker.value].ticket == t
  }

  /** Its result is marked as integrated, and the calls of the ticket are over. */
  ghost predicate Integrated(s: State, r: State, t: Ticket) {
    && t in s.work && s.work[t].result.Some? && |r.dispatches| == |s.dispatches|
    && r == s.(work := s.work[t := s.work[t].(result := Some(s.work[t].result.value.(integrated := true)))],
               dispatches := r.dispatches)
    && forall i | 0 <= i < |s.dispatches| :: r.dispatches[i] ==
         if s.dispatches[i].payload.ticket == t then s.dispatches[i].(state := CallReturned) else s.dispatches[i]
  }

  /** Exactly such a row is integrated. */
  lemma IntegrationIsGranted(s: State, t: Ticket, env: Env)
    requires |s.members| == 6 && (s.contract.Some? ==> t.plan == s.contract.value.plan)
    ensures var r := ApplyRoot(s, IntegrateTask(t.slot, env));
            if RootMayWrite(s, t, env) && TestedWork(s, t) then Integrated(s, r, t) else r == s
  {
    WhenTested(s, t, env);
    if s.contract.Some? && MayIntegrate(s, t.slot, env) {
      IntegratesOne(s, t, env);
    }
  }

  lemma WhenTested(s: State, t: Ticket, env: Env)
    requires |s.members| == 6 && (s.contract.Some? ==> t.plan == s.contract.value.plan)
    ensures MayIntegrate(s, t.slot, env) <==> RootMayWrite(s, t, env) && TestedWork(s, t)
  {
    if s.contract.Some? {
      WritersMayWrite(s, t, env);
    }
  }

  lemma IntegratesOne(s: State, t: Ticket, env: Env)
    requires MayIntegrate(s, t.slot, env) && t.plan == s.contract.value.plan
    ensures Integrated(s, Integrate(s, t.slot, env), t)
  {
  }

  lemma WritersMayWrite(s: State, t: Ticket, env: Env)
    requires |s.members| == 6 && s.contract.Some? && t.plan == s.contract.value.plan
    ensures RootMayWrite(s, t, env) <==> MayWrite(s, env) && HasRow(s, t.slot) && DetailsRead(s, t)
  {
    assert (forall m | m in s.members :: m.agent != None) <==>
           forall k | 0 <= k < |s.members| :: s.members[k].agent.Some?;
  }

  /** A returned row is accepted exactly with checked work; a writer's tested and integrated. */
  lemma AcceptanceIsGranted(s: State, t: Ticket, env: Env)
    requires |s.members| == 6 && (s.contract.Some? ==> t.plan == s.contract.value.plan)
    ensures var r := ApplyRoot(s, AcceptOne(t.slot, env));
            if && RootMayWrite(s, t, env) && s.work[t].stage == Returned
               && match s.work[t].result
                  case None => false
                  case Some(h) => if s.work[t].task.kind == Implement then h.status == Status.Tested && h.integrated
                                  else h.status == Status.Tested || h.status == Status.Analysis
            then r == s.(work := s.work[t := s.work[t].(stage := Accepted)])
            else r == s
  {
    if s.contract.Some? {
      WritersMayWrite(s, t, env);
    }
  }
}
