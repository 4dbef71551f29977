/** The phase transitions check most of their guards before the transaction that commits them. What may happen in
    between, and what holds nevertheless. */
module CrewRaces {
  import opened Files
  import opened Wrappers
  import Paths
  import opened Work
  import opened Crew
  import opened CrewInv
  import opened CrewCalls
  import opened CrewCertificate

  // ---------- the contract of a round ----------

  /** A round's contract is the same, but for its completion. */
  ghost predicate SameRound(c: Contract, d: Contract) {
    d == c || d == c.(phase := COMPLETE, decision := d.decision)
  }

  /** Rounds only go forward, and within a round the contract stays. */
  ghost predicate Forward(s: State, r: State) {
    s.plans <= r.plans &&
    (s.contract.Some? ==>
       r.contract.Some? &&
       (SameRound(s.contract.value, r.contract.value) || s.contract.value.plan < r.contract.value.plan))
  }

  lemma ForwardTwice(s: State, m: State, r: State)
    requires Forward(s, m) && Forward(m, r)
    ensures Forward(s, r)
  {
  }

  lemma SteadyIsForward(s: State, r: State)
    requires r.contract == s.contract && r.plans == s.plans
    ensures Forward(s, r)
  {
  }

  lemma NewRoundIsForward(s: State, m: State, c: Contract, tasks: seq<Task>)
    requires Shape(s) && m.plans == s.plans && |tasks| == SLOTS
    ensures Forward(s, NewRound(m, c, tasks))
  {
  }

  lemma StartIsForward(s: State, revise: bool, terms: Terms, free: bool, env: Env)
    requires Shape(s)
    ensures Forward(s, Start(s, revise, terms, free, env))
  {
    if MayStart(s, revise, terms, free, env) {
      NewRoundIsForward(s, Closed(s), Agreed(terms), LensTasks(PlanLenses, terms.evidencePaths));
    }
  }

  lemma ExecuteIsForward(s: State, repair: bool, decision: string, tasks: seq<Task>, env: Env)
    requires Shape(s)
    ensures Forward(s, Execute(s, repair, decision, tasks, env))
  {
    if MayExecute(s, repair, decision, tasks, env) {
      var next := Executing(s.contract.value, decision);
      NewRoundIsForward(s, AcceptRound(s, repair), next, tasks);
    }
  }

  lemma ReviewIsForward(s: State, decision: string, order: seq<Paths.Path>, env: Env)
    requires Shape(s)
    ensures Forward(s, Review(s, decision, order, env))
  {
    if MayReview(s, decision, order, env) {
      NewRoundIsForward(s, AcceptRound(s, false), Frozen(s.contract.value, decision, env),
                        LensTasks(ReviewLenses, order));
    }
  }

  lemma FinishIsForward(s: State, decision: string, env: Env)
    ensures Forward(s, Finish(s, decision, env))
  {
  }

  lemma RoundIsForward(s: State, n: RoundCommand)
    requires Shape(s)
    ensures Forward(s, ApplyRound(s, n))
  {
    match n
    case StartCrew(revise, terms, free, env) => StartIsForward(s, revise, terms, free, env);
    case NextCrew(failing, env) => SteadyIsForward(s, Next(s, failing, env));
    case ExecuteCrew(repair, decision, tasks, env) => ExecuteIsForward(s, repair, decision, tasks, env);
    case ReviewCrew(decision, order, env) => ReviewIsForward(s, decision, order, env);
    case CompleteCrew(decision, env) => FinishIsForward(s, decision, env);
  }

  lemma WorkerIsSteady(s: State, k: WorkerCommand)
    ensures ApplyWorker(s, k).contract == s.contract && ApplyWorker(s, k).plans == s.plans
  {
  }

  lemma CommandIsForward(s: State, c: Command)
    requires Inv(s)
    ensures Forward(s, Apply(s, c))
  {
    match c
    case AtHost(h) =>
      HostSameRecord(s, h);
      SteadyIsForward(s, ApplyHost(s, h));
    case AtWait(w) =>
      WaitSameRecord(s, w);
      SteadyIsForward(s, ApplyWait(s, w));
    case ByWorker(k) =>
      WorkerIsSteady(s, k);
      SteadyIsForward(s, ApplyWorker(s, k));
    case ByRoot(r) =>
      RootSameRecord(s, r);
      SteadyIsForward(s, ApplyRoot(s, r));
    case AtRound(n) => RoundIsForward(s, n);
  }

  lemma {:induction false} RunIsForward(s: State, cs: seq<Command>)
    requires Inv(s)
    ensures Forward(s, Run(s, cs))
    decreases |cs|
  {
    if cs != [] {
      CommandIsForward(s, cs[0]);
      ApplyKeeps(s, cs[0]);
      RunIsForward(Apply(s, cs[0]), cs[1..]);
      ForwardTwice(s, Apply(s, cs[0]), Run(s, cs));
    }
  }

  // ---------- completion ----------

  /** crew-complete in two steps: its checks read one state, its transaction finds another. It compares the plans,
      accepts the rows as they were read, and certifies what was read. */
  ghost function FinishLate(checked: State, s: State, decision: string, env: Env): State
    requires MayFinish(checked, decision, env)
  {
    if s.contract.None? || s.contract.value.plan != checked.contract.value.plan then s
    else
      s.(contract := Some(s.contract.value.(phase := COMPLETE, decision := Some(decision))),
         work := map t | t in s.work :: if t.plan == s.contract.value.plan && t.slot < SLOTS && t in checked.work
                                        then Settle(checked, t, false) else s.work[t],
         log := s.log + [Certificate(checked, env)])
  }

  lemma WiderSpan(log: seq<Event>, k: nat, e: nat, wider: nat, t: Ticket, agent: Agent, requirements: nat, f: Snapshot)
    requires e <= wider <= |log| && ClearReportBetween(log, k, e, t, agent, requirements, f)
    ensures ClearReportBetween(log, k, wider, t, agent, requirements, f)
  {
  }

  /** The reports that were read as clear stay on record, whatever is written until the commit. */
  lemma ReadReportsStay(checked: State, more: seq<Event>, decision: string, env: Env, k: nat)
    requires MayFinish(checked, decision, env) && ReviewedSince(checked, k) && checked.log <= more
    ensures var c := Certificate(checked, env);
            forall i | 0 <= i < SLOTS ::
              ClearReportBetween(more + [c], k, |more|, Ticket(c.plan, i), c.agents[i], |c.requirements|, c.artifact)
  {
    var c := Certificate(checked, env);
    var log := more + [c];
    forall i | 0 <= i < SLOTS
      ensures ClearReportBetween(log, k, |more|, Ticket(c.plan, i), c.agents[i], |c.requirements|, c.artifact)
    {
      assert RowSettled(checked, i, true, false, env);
      SlotCertified(checked, k, i, env, log);
      WiderSpan(log, k, |checked.log|, |more|, Ticket(c.plan, i), c.agents[i], |c.requirements|, c.artifact);
    }
  }

  /** What the late transaction appends is the certificate of what was read. */
  lemma LateLog(checked: State, s: State, decision: string, env: Env)
    requires MayFinish(checked, decision, env) && FinishLate(checked, s, decision, env) != s
    ensures FinishLate(checked, s, decision, env).log == s.log + [Certificate(checked, env)]
  {
  }

  lemma LateBacked(checked: State, more: seq<Event>, decision: string, env: Env, k: nat)
    requires MayFinish(checked, decision, env) && ReviewedSince(checked, k) && checked.log <= more
    ensures CertifiedBy(more + [Certificate(checked, env)], |more|, k)
  {
    var c := Certificate(checked, env);
    var log := more + [c];
    assert log[|more|] == c && log[k] == checked.log[k];
    FinishChecked(checked, decision, env, k);
    ReadReportsStay(checked, more, decision, env, k);
  }

  lemma LateNames(checked: State, s: State, decision: string, env: Env)
    requires MayFinish(checked, decision, env) && Later(checked, s) && Forward(checked, s)
    requires FinishLate(checked, s, decision, env) != s
    ensures Certifies(FinishLate(checked, s, decision, env), |s.log|)
  {
    LateLog(checked, s, decision, env);
  }

  /** The late completion has a certificate, backed by the record. */
  ghost predicate CertifiedLate(s: State, r: State) {
    && IsComplete(r) && |r.log| == |s.log| + 1 && r.log[|s.log|].Certified? && Certifies(r, |s.log|)
    && exists k :: CertifiedBy(r.log, |s.log|, k)
  }

  lemma LateIsCertified(checked: State, s: State, decision: string, env: Env)
    requires MayFinish(checked, decision, env) && Recorded(checked) && Later(checked, s) && Forward(checked, s)
    requires FinishLate(checked, s, decision, env) != s
    ensures CertifiedLate(s, FinishLate(checked, s, decision, env))
  {
    var k :| ReviewedSince(checked, k);
    LateLog(checked, s, decision, env);
    LateBacked(checked, s.log, decision, env, k);
    LateNames(checked, s, decision, env);
  }

  lemma GoesOn(foreign: set<Agent>, cs: seq<Command>, between: seq<Command>)
    ensures var checked := Run(Initial(foreign), cs);
            Recorded(checked) && Later(checked, Run(checked, between)) && Forward(checked, Run(checked, between))
  {
    var checked := Run(Initial(foreign), cs);
    InitialInv(foreign);
    RunKeeps(Initial(foreign), cs);
    RunRecords(Initial(foreign), cs);
    RunIsLater(checked, between);
    RunIsForward(checked, between);
  }

  /** Whatever commits between the checks of crew-complete and its transaction: if the transaction goes through, its
      certificate is backed like any other, and it names the artifact and agents of the contract that it completes. */
  lemma LateFinishIsCertified(foreign: set<Agent>, cs: seq<Command>, between: seq<Command>, decision: string,
                              env: Env)
    requires MayFinish(Run(Initial(foreign), cs), decision, env)
    ensures var checked := Run(Initial(foreign), cs);
            var s := Run(checked, between);
            var r := FinishLate(checked, s, decision, env);
            r != s ==> CertifiedLate(s, r)
  {
    var checked := Run(Initial(foreign), cs);
    var s := Run(checked, between);
    GoesOn(foreign, cs, between);
    if FinishLate(checked, s, decision, env) != s {
      LateIsCertified(checked, s, decision, env);
    }
  }

  // ---------- workers ----------

  /** Nothing is under way and every row of the round is over or handed back. */
  ghost predicate AtRest(s: State) {
    && !AnyLive(s) && s.contract.Some?
    && (forall i | 0 <= i < SLOTS && Now(s, i) in s.work :: s.work[Now(s, i)].stage in {Returned, Accepted})
  }

  /** The rows of the round are as they were, but for the result of one that was handed back. */
  ghost predicate SameButResults(s: State, r: State) {
    && r.contract == s.contract && r.plans == s.plans && r.members == s.members && r.metas == s.metas
    && r.reports == s.reports && r.delivered == s.delivered && r.log == s.log && r.work.Keys == s.work.Keys
    && (s.contract.Some? ==> forall i | 0 <= i < SLOTS && Now(s, i) in s.work ::
          && r.work[Now(s, i)].(result := None) == s.work[Now(s, i)].(result := None)
          && (s.work[Now(s, i)].stage != Returned ==> r.work[Now(s, i)] == s.work[Now(s, i)]))
  }

  lemma RestedWorker(s: State, k: WorkerCommand)
    requires Shape(s) && AtRest(s) && !k.Return?
    ensures ApplyWorker(s, k) == s
  {
    if k.SubmitReport? && k.agent in s.metas && s.metas[k.agent].ticket in s.work &&
       s.metas[k.agent].ticket.plan == s.contract.value.plan {
      RestedRow(s, s.metas[k.agent].ticket);
    }
  }

  lemma RestedRow(s: State, t: Ticket)
    requires Shape(s) && AtRest(s) && t in s.work && t.plan == s.contract.value.plan
    ensures s.work[t].stage in {Returned, Accepted}
  {
    assert Now(s, t.slot) == t;
  }

  /** The row of a handback, with its calls closed. */
  function Replaced(s: State, t: Ticket, result: Handback): State
    requires t in s.work
  {
    s.(work := s.work[t := s.work[t].(stage := Returned, result := Some(result))],
       dispatches := SetCalls(s.dispatches, t, CallReturned))
  }

  lemma ReplacedIsIdle(s: State, t: Ticket, result: Handback)
    requires !AnyLive(s) && t in s.work
    ensures !AnyLive(Replaced(s, t, result))
  {
  }

  lemma ReplacedRows(s: State, t: Ticket, result: Handback, i: nat)
    requires AtRest(s) && t in s.work && Occupies(s.work[t].stage) && i < SLOTS && Now(s, i) in s.work
    ensures var r := Replaced(s, t, result);
            && Now(r, i) == Now(s, i) && r.work[Now(s, i)].stage == s.work[Now(s, i)].stage
            && r.work[Now(s, i)].(result := None) == s.work[Now(s, i)].(result := None)
            && (s.work[Now(s, i)].stage != Returned ==> r.work[Now(s, i)] == s.work[Now(s, i)])
  {
  }

  lemma ReplacedRests(s: State, t: Ticket, result: Handback)
    requires AtRest(s) && t in s.work && Occupies(s.work[t].stage)
    ensures AtRest(Replaced(s, t, result)) && SameButResults(s, Replaced(s, t, result))
  {
    ReplacedIsIdle(s, t, result);
    forall i | 0 <= i < SLOTS && Now(s, i) in s.work
      ensures var r := Replaced(s, t, result);
              && Now(r, i) == Now(s, i) && r.work[Now(s, i)].stage == s.work[Now(s, i)].stage
              && r.work[Now(s, i)].(result := None) == s.work[Now(s, i)].(result := None)
              && (s.work[Now(s, i)].stage != Returned ==> r.work[Now(s, i)] == s.work[Now(s, i)])
    {
      ReplacedRows(s, t, result, i);
    }
    assert forall i | 0 <= i < SLOTS :: Now(Replaced(s, t, result), i) == Now(s, i);
  }

  lemma RestedHandBack(s: State, a: Agent, status: Status)
    requires AtRest(s)
    ensures AtRest(HandBack(s, a, status)) && SameButResults(s, HandBack(s, a, status))
  {
    if a in s.metas && s.metas[a].ticket in s.work && Occupies(s.work[s.metas[a].ticket].stage) {
      ReplacedRests(s, s.metas[a].ticket, Handback(status, Some(a), false));
    }
  }

  lemma SameButResultsTwice(s: State, m: State, r: State)
    requires SameButResults(s, m) && SameButResults(m, r)
    ensures SameButResults(s, r)
  {
    if s.contract.Some? {
      assert forall i | 0 <= i < SLOTS :: Now(m, i) == Now(s, i);
    }
  }

  lemma RestLastsOnce(s: State, k: WorkerCommand)
    requires Shape(s) && AtRest(s)
    ensures AtRest(ApplyWorker(s, k)) && SameButResults(s, ApplyWorker(s, k))
  {
    if k.Return? {
      RestedHandBack(s, k.agent, k.status);
    } else {
      RestedWorker(s, k);
    }
  }

  lemma {:induction false} RestLasts(s: State, ks: seq<Command>)
    requires Inv(s) && AtRest(s) && forall c | c in ks :: c.ByWorker?
    ensures AtRest(Run(s, ks)) && SameButResults(s, Run(s, ks))
    decreases |ks|
  {
    if ks != [] {
      var m := Apply(s, ks[0]);
      RestLastsOnce(s, ks[0].k);
      ApplyKeeps(s, ks[0]);
      RestLasts(m, ks[1..]);
      SameButResultsTwice(s, m, Run(s, ks));
    }
  }

  /** Once a round was found returned, workers can no longer disturb the transition: whatever they submit before it
      commits, contract, reports, records and rows stay, only a handback may be replaced, and nothing is under way. */
  lemma WorkersCannotDisturb(s: State, clear: bool, env: Env, ks: seq<Command>)
    requires Inv(s) && s.contract.Some? && AllReturned(s, clear, false, env) && forall c | c in ks :: c.ByWorker?
    ensures AtRest(Run(s, ks)) && SameButResults(s, Run(s, ks))
  {
    forall i | 0 <= i < SLOTS ensures s.work[Now(s, i)].stage in {Returned, Accepted} {
      assert RowSettled(s, i, clear, false, env);
    }
    RestLasts(s, ks);
  }
}
