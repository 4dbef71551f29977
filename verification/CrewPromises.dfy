/** What a caller of one command may rely on, because the tables are the result of a whole run of commands. */
module CrewPromises {
  import opened Wrappers
  import Paths
  import opened Work
  import opened Crew
  import opened CrewInv
  import opened CrewCalls
  import opened CrewWaits
  import opened CrewBudget
  import opened CrewCertificate
  import opened CrewProgress
  import opened CrewReports
  import opened CrewSchedule
  import opened CrewStatuses
  import opened Plans
  import Traces

  /** Everything the invariants say of a state that a run of commands led to. */
  ghost predicate Sound(s: State) {
    Bounded(s) && Recorded(s)
  }

  lemma ReachableIsSound(foreign: set<Agent>, cs: seq<Command>)
    ensures Sound(Run(Initial(foreign), cs))
  {
    ReachableBounded(foreign, cs);
    InitialInv(foreign);
    RunRecords(Initial(foreign), cs);
  }

  /** The commands lead from one state to the other. */
  ghost predicate Leads(s: State, cs: seq<Command>, r: State) {
    Traces.Leads(Apply, s, cs, r)
  }

  /** To lead to a state is to have it as the result of the run. */
  lemma {:induction false} LeadsIsRun(s: State, cs: seq<Command>, r: State)
    ensures Leads(s, cs, r) <==> r == Run(s, cs)
    decreases |cs|
  {
    if cs == [] {
      Traces.LeadsNowhere(Apply, s, r);
    } else {
      Traces.LeadsFrom(Apply, s, cs, r);
      LeadsIsRun(Apply(s, cs[0]), cs[1..], r);
    }
  }

  lemma LeadsIsSound(foreign: set<Agent>, cs: seq<Command>, s: State)
    requires Leads(Initial(foreign), cs, s)
    ensures Sound(s)
  {
    LeadsIsRun(Initial(foreign), cs, s);
    ReachableIsSound(foreign, cs);
  }

  lemma LeadsKeeps(foreign: set<Agent>, cs: seq<Command>, s: State)
    requires Leads(Initial(foreign), cs, s)
    ensures Inv(s)
  {
    LeadsIsRun(Initial(foreign), cs, s);
    ReachableCrew(foreign, cs);
  }

  lemma LeadsRefuses(foreign: set<Agent>, cs: seq<Command>, s: State, call: CallId)
    requires Leads(Initial(foreign), cs, s) && call in Refused(s)
    ensures Proven(cs, call)
  {
    LeadsIsRun(Initial(foreign), cs, s);
    RunRefuses(Initial(foreign), cs, call);
  }

  // ---------- dispatch ----------

  /** Each of these dispatches that spawned the slot was refused, as a transcript proved, and a retry was granted for
      it. */
  ghost predicate NoRivalIn(ds: seq<Dispatch>, slot: nat, retried: set<CallId>, cs: seq<Command>) {
    forall i | 0 <= i < |ds| && SpawnOf(ds[i], slot) :: ds[i].call in retried && Proven(cs, ds[i].call)
  }

  /** What was sent is the ticket's only live call, within its budget, and if it spawns, no earlier spawn rivals it. */
  ghost predicate OneSent(s: State, r: State, call: CallId, p: Payload, cs: seq<Command>) {
    && !TicketLive(s, p.ticket) && r.dispatches == s.dispatches + [Dispatch(call, p, Unacknowledged)]
    && |CallsOf(r.dispatches, p.ticket) - Refused(r)| <= 1 + MAX_RECOVERIES
    && (p.kind == Spawn ==> NoRivalIn(s.dispatches, p.ticket.slot, r.retried, cs))
  }

  lemma NoRivals(foreign: set<Agent>, cs: seq<Command>, s: State, p: Payload, env: Env)
    requires Leads(Initial(foreign), cs, s)
    requires MayDispatch(s, p, env) && p.kind == Spawn
    ensures NoRivalIn(s.dispatches, p.ticket.slot, s.retried, cs)
  {
    LeadsKeeps(foreign, cs, s);
    forall i | 0 <= i < |s.dispatches| && SpawnOf(s.dispatches[i], p.ticket.slot)
      ensures s.dispatches[i].call in s.retried && Proven(cs, s.dispatches[i].call)
    {
      assert Now(s, p.ticket.slot) == p.ticket;
      NoRivalSpawn(s, p.ticket.slot, i);
      LeadsRefuses(foreign, cs, s, s.dispatches[i].call);
    }
  }

  lemma SentAlone(s: State, call: CallId, p: Payload, env: Env, cs: seq<Command>)
    requires Bounded(s) && FindCall(s.dispatches, call).None? && MayDispatch(s, p, env)
    requires p.kind == Spawn ==> NoRivalIn(s.dispatches, p.ticket.slot, s.retried, cs)
    ensures OneSent(s, PreDispatch(s, call, p, env), call, p, cs)
  {
    DispatchWithinBudget(s, call, p, env);
    assert WithinBudget(Dispatched(s, call, p), p.ticket);
  }

  lemma Authorised(foreign: set<Agent>, cs: seq<Command>, s: State, call: CallId, p: Payload, env: Env)
    requires Leads(Initial(foreign), cs, s)
    requires FindCall(s.dispatches, call).None? && MayDispatch(s, p, env)
    ensures OneSent(s, PreDispatch(s, call, p, env), call, p, cs)
  {
    LeadsIsSound(foreign, cs, s);
    if p.kind == Spawn {
      NoRivals(foreign, cs, s, p, env);
    }
    SentAlone(s, call, p, env, cs);
  }

  /** Bound agents stay bound, and none sits in two slots or with two roots. */
  ghost predicate OneSlotEach(s: State, r: State) {
    KeepsAgents(s, r) && Roster(r)
  }

  lemma Bound(foreign: set<Agent>, cs: seq<Command>, s: State, h: HostCommand)
    requires Leads(Initial(foreign), cs, s)
    ensures OneSlotEach(s, ApplyHost(s, h))
  {
    LeadsKeeps(foreign, cs, s);
    HostKeeps(s, h);
    HostIsLater(s, h);
  }

  /** Only the row of the answered call may differ. */
  ghost predicate OthersStay(s: State, r: State, call: CallId) {
    var i := FindCall(s.dispatches, call);
    forall t | t in s.work && (i.Some? ==> t != s.dispatches[i.value].payload.ticket) ::
      t in r.work && r.work[t] == s.work[t]
  }

  lemma AnswerMovesOneRow(s: State, call: CallId, answer: Answer)
    requires Shape(s)
    ensures var i := FindCall(s.dispatches, call);
            var r := PostDispatch(s, call, answer);
            r.work == s.work ||
            (i.Some? && var t := s.dispatches[i.value].payload.ticket; t in r.work && r.work == s.work[t := r.work[t]])
  {
    AnswerCases(s, call, answer);
  }

  lemma OneRowMoved(s: State, r: State, call: CallId)
    requires r.work == s.work ||
             var i := FindCall(s.dispatches, call);
             i.Some? && var t := s.dispatches[i.value].payload.ticket; t in r.work && r.work == s.work[t := r.work[t]]
    ensures OthersStay(s, r, call)
  {
  }

  lemma AnswerTouches(foreign: set<Agent>, cs: seq<Command>, s: State, call: CallId, answer: Answer)
    requires Leads(Initial(foreign), cs, s)
    ensures OthersStay(s, PostDispatch(s, call, answer), call)
  {
    LeadsKeeps(foreign, cs, s);
    AnswerMovesOneRow(s, call, answer);
    OneRowMoved(s, PostDispatch(s, call, answer), call);
  }

  /** What is newly refused is the call itself, proven by its transcript; every ticket with a standing refusal is
      idle. */
  ghost predicate RefusesOnly(s: State, r: State, call: CallId, receipt: Receipt) {
    && Refused(s) <= Refused(r)
    && (forall c | c in Refused(r) && c !in Refused(s) :: c == call && ProvesRefusal(receipt, call))
    && (forall t | t in r.rejected :: !TicketLive(r, t))
  }

  lemma RefusedTicketsAreIdle(s: State)
    requires RefusedIsIdle(s)
    ensures forall t | t in s.rejected :: !TicketLive(s, t)
  {
  }

  lemma ReconcileProves(s: State, call: CallId, receipt: Receipt)
    ensures forall c | c in Refused(Reconciled(s, call, receipt)) && c !in Refused(s) ::
              c == call && ProvesRefusal(receipt, call)
  {
    forall c | c in Refused(Reconciled(s, call, receipt)) && c !in Refused(s)
      ensures c == call && ProvesRefusal(receipt, call)
    {
      HostRefuses(s, Reconcile(call, receipt), c);
    }
  }

  lemma ReconcileRefusesOnly(foreign: set<Agent>, cs: seq<Command>, s: State, call: CallId, receipt: Receipt)
    requires Leads(Initial(foreign), cs, s)
    ensures RefusesOnly(s, Reconciled(s, call, receipt), call, receipt)
  {
    LeadsKeeps(foreign, cs, s);
    ReconciledIsLater(s, call, receipt);
    ReconciledKeeps(s, call, receipt);
    RefusedTicketsAreIdle(Reconciled(s, call, receipt));
    ReconcileProves(s, call, receipt);
  }

  /** The retry rests on a proven refusal of the slot's ticket and lets its spawn be authorised again. */
  ghost predicate Granted(s: State, r: State, slot: nat, env: Env, cs: seq<Command>) {
    && s.contract.Some? && HasRow(s, slot) && Now(s, slot) in s.rejected && Now(s, slot) !in r.rejected
    && s.rejected[Now(s, slot)] in r.retried && Proven(cs, s.rejected[Now(s, slot)])
    && (s.contract.value.phase != COMPLETE && Spawnable(s, Now(s, slot)) ==>
          forall body :: MayDispatch(r, SpawnFor(Now(s, slot), body), env))
  }

  lemma RetryReopens(s: State, slot: nat, env: Env, cs: seq<Command>)
    requires Retry(s, slot, env) != s && Proven(cs, s.rejected[Now(s, slot)])
    ensures Granted(s, Retry(s, slot, env), slot, env, cs)
  {
  }

  lemma RetryGranted(foreign: set<Agent>, cs: seq<Command>, s: State, slot: nat, env: Env)
    requires Leads(Initial(foreign), cs, s)
    requires Retry(s, slot, env) != s
    ensures Granted(s, Retry(s, slot, env), slot, env, cs)
  {
    LeadsRefuses(foreign, cs, s, s.rejected[Now(s, slot)]);
    RetryReopens(s, slot, env, cs);
  }

  /** An agent is another root's exactly if none of the six slots has it. */
  ghost predicate Elsewhere(r: State, a: Agent) {
    a in r.foreign <==> forall k | 0 <= k < |r.members| :: r.members[k].agent != Some(a)
  }

  lemma BoundElsewhere(foreign: set<Agent>, cs: seq<Command>, s: State, a: Agent)
    requires Leads(Initial(foreign), cs, s)
    ensures Elsewhere(BindElsewhere(s, a), a)
  {
    LeadsKeeps(foreign, cs, s);
  }

  // ---------- waits ----------

  /** The wait saw the present dispatches of every target. */
  ghost predicate SeesTargets(r: State, call: CallId, targets: seq<Agent>) {
    && call in r.waits && (forall a | a in targets :: a in r.waits[call].snapshot)
    && (forall a | a in r.waits[call].snapshot :: Saw(r, r.waits[call], r.waits[call].snapshot[a].ticket))
  }

  lemma WaitIssued(s: State, call: CallId, targets: seq<Agent>, env: Env)
    requires PreWait(s, call, targets, env) != s
    ensures SeesTargets(PreWait(s, call, targets, env), call, targets)
  {
    var r := PreWait(s, call, targets, env);
    forall a | a in r.waits[call].snapshot ensures Saw(r, r.waits[call], r.waits[call].snapshot[a].ticket) {
      assert r.waits[call].snapshot[a] ==
             Saved(r.waits[call].snapshot[a].ticket, Epoch(r.dispatches, r.waits[call].snapshot[a].ticket));
    }
  }

  /** Only tickets that the wait saw as they are may differ; the wait is over, and one that was over changes nothing. */
  ghost predicate Heeds(s: State, r: State, call: CallId) {
    && (forall t | !Untouched(s, r, t) :: call in s.waits && Saw(s, s.waits[call], t))
    && (call in s.waits ==> call in r.waits && r.waits[call].result.Some?)
    && (call in s.waits && s.waits[call].result.Some? ==> r == s)
  }

  lemma ResultIsHeeded(s: State, call: CallId, result: WaitResult)
    ensures Heeds(s, PostWait(s, call, result), call)
  {
    forall t | !Untouched(s, PostWait(s, call, result), t) ensures call in s.waits && Saw(s, s.waits[call], t) {
      ResultTouches(s, call, result, t);
    }
  }

  lemma StatusesCount(foreign: set<Agent>, cs: seq<Command>, s: State, call: CallId, result: WaitResult)
    requires Leads(Initial(foreign), cs, s)
    ensures EachCounts(s, PostWait(s, call, result), call, result)
  {
    LeadsIsRun(Initial(foreign), cs, s);
    RunKeepsApart(Initial(foreign), cs);
    ResultCounts(s, call, result);
  }

  lemma ReadyIsReserved(foreign: set<Agent>, cs: seq<Command>, s: State, failing: set<nat>, env: Env)
    requires Leads(Initial(foreign), cs, s)
    ensures TakesTheReady(s, Next(s, failing, env), env)
  {
    LeadsIsRun(Initial(foreign), cs, s);
    ReachableIsNamed(foreign, cs);
    NextTakesTheReady(s, failing, env);
  }

  /** The follow-up that was prepared is one the dispatch will honour, and there is a recovery left for it. */
  ghost predicate Honoured(r: State, slot: nat, env: Env) {
    && r.contract.Some? && HasRow(r, slot) && Recoveries(r, Now(r, slot)) < MAX_RECOVERIES
    && (r.work[Now(r, slot)].agent.Some? ==>
          Now(r, slot) in r.requests && r.requests[Now(r, slot)].payload.ticket == Now(r, slot) &&
          MayRecover(r, r.requests[Now(r, slot)].payload, env))
  }

  lemma RecoveryIsPrepared(s: State, slot: nat, env: Env)
    requires Ready(s, env) && HasRow(s, slot) && MayPrepareRecovery(s, Now(s, slot), env)
    ensures Honoured(PrepareRecovery(s, slot, env), slot, env)
  {
    var r := PrepareRecovery(s, slot, env);
    assert Now(r, slot) == Now(s, slot) && Recoveries(r, Now(r, slot)) == Recoveries(s, Now(s, slot));
    if s.work[Now(s, slot)].agent.Some? {
      PreparedMayRecover(s, slot, env);
    }
  }

  // ---------- workers and single rows ----------

  /** The agent that joined runs the ticket, and its slot is the only one it is bound to. */
  ghost predicate Sits(r: State, a: Agent, t: Ticket) {
    && t in r.work && r.work[t].stage == Running && r.work[t].agent == Some(a)
    && forall k | 0 <= k < |r.members| :: r.members[k].agent == Some(a) <==> k == t.slot
  }

  lemma JoinedSits(s: State, a: Agent, t: Ticket, genuine: bool, env: Env)
    requires Inv(s) && MayJoin(s, a, t, genuine, env)
    ensures Sits(Join(s, a, t, genuine, env), a, t)
  {
    JoinKeepsTables(s, a, t, genuine, env);
  }

  lemma JoinSits(foreign: set<Agent>, cs: seq<Command>, s: State, a: Agent, t: Ticket, genuine: bool, env: Env)
    requires Leads(Initial(foreign), cs, s)
    requires MayJoin(s, a, t, genuine, env)
    ensures Sits(Join(s, a, t, genuine, env), a, t)
  {
    LeadsKeeps(foreign, cs, s);
    JoinedSits(s, a, t, genuine, env);
  }

  /** In review, the report of the agent's ticket cites files as they were frozen, and so does every report of the
      round. */
  ghost predicate OnTheArtifact(r: State, a: Agent) {
    r.contract.Some? && r.contract.value.phase == REVIEW ==>
      a in r.metas && r.metas[a].ticket in r.reports &&
      Cites(r.reports[r.metas[a].ticket], r.contract.value.snapshot) &&
      exists k :: ReviewedSince(r, k)
  }

  lemma ReportIsOnArtifact(s: State, a: Agent, d: Draft, env: Env)
    requires Inv(s) && Recorded(s) && MayReport(s, a, d, env) && s.contract.value.phase == REVIEW
    ensures OnTheArtifact(Submit(s, a, d, env), a)
  {
    ReviewCites(s, a, d, env);
    SubmitRecords(s, a, d, env);
  }

  lemma ReportRecorded(foreign: set<Agent>, cs: seq<Command>, s: State, a: Agent, d: Draft, env: Env)
    requires Leads(Initial(foreign), cs, s)
    requires MayReport(s, a, d, env)
    ensures OnTheArtifact(Submit(s, a, d, env), a) && OnRecord(Submit(s, a, d, env), a, d)
  {
    SubmittedIsOnRecord(s, a, d, env);
    LeadsIsSound(foreign, cs, s);
    if s.contract.value.phase == REVIEW {
      ReportIsOnArtifact(s, a, d, env);
    }
  }

  /** Nothing but the rows and dispatches of one ticket differs. */
  ghost predicate OnlyOf(s: State, r: State, t: Ticket) {
    forall u | u != t :: Untouched(s, r, u)
  }

  /** Only the ticket its agent joined last may differ, and if it does, no call of it is left. */
  ghost predicate HandsBackOnly(s: State, r: State, a: Agent) {
    if a !in s.metas then r == s
    else
      var t := s.metas[a].ticket;
      OnlyOf(s, r, t) && t.slot < |r.members| && r.members[t.slot].agent == Some(a) && (r != s ==> !TicketLive(r, t))
  }

  lemma HandBackTouches(foreign: set<Agent>, cs: seq<Command>, s: State, a: Agent, status: Status)
    requires Leads(Initial(foreign), cs, s)
    ensures HandsBackOnly(s, HandBack(s, a, status), a)
  {
    LeadsKeeps(foreign, cs, s);
    HandBackMoves(s, a, status);
  }

  lemma HandBackMoves(s: State, a: Agent, status: Status)
    requires Joined(s)
    ensures HandsBackOnly(s, HandBack(s, a, status), a)
  {
    var r := HandBack(s, a, status);
    if a in s.metas {
      var t := s.metas[a].ticket;
      forall u | u != t ensures Untouched(s, r, u) {
        ClosingTouches(s, r, t, CallReturned, u);
      }
      if r != s {
        ClosedIsIdle(s, r, t, CallReturned);
      }
    }
  }

  lemma ClosedIsIdle(s: State, r: State, t: Ticket, state: CallState)
    requires r.dispatches == SetCalls(s.dispatches, t, state) && !Outstanding(state)
    ensures !TicketLive(r, t)
  {
  }

  lemma ClosingTouches(s: State, r: State, t: Ticket, state: CallState, u: Ticket)
    requires u != t && r.observed == s.observed && (r == s || (r.dispatches == SetCalls(s.dispatches, t, state)))
    requires u in s.work <==> u in r.work
    requires u in s.work ==> r.work[u] == s.work[u]
    ensures Untouched(s, r, u)
  {
  }

  /** What entered the root's checkout was handed back as tested by the slot's own agent. */
  ghost predicate OwnPatch(r: State, slot: nat) {
    && r.contract.Some? && HasRow(r, slot)
    && var row := r.work[Now(r, slot)];
       row.task.kind == Implement && row.result.Some? && row.result.value.integrated &&
       row.result.value.status == Status.Tested && row.result.value.worker == r.members[slot].agent
  }

  lemma IntegratesOwnPatch(foreign: set<Agent>, cs: seq<Command>, s: State, slot: nat, env: Env)
    requires Leads(Initial(foreign), cs, s)
    requires MayIntegrate(s, slot, env)
    ensures OwnPatch(Integrate(s, slot, env), slot)
  {
    LeadsKeeps(foreign, cs, s);
    assert Now(Integrate(s, slot, env), slot) == Now(s, slot);
  }

  /** What was accepted was handed back as checked and, if it wrote, integrated, and no call of it is left. */
  ghost predicate AcceptedWork(r: State, slot: nat) {
    && r.contract.Some? && HasRow(r, slot) && !TicketLive(r, Now(r, slot))
    && var row := r.work[Now(r, slot)];
       row.stage == Accepted && row.result.Some? && row.result.value.status in {Status.Analysis, Status.Tested} &&
       (row.task.kind == Implement ==> row.result.value.integrated)
  }

  lemma AcceptedIsIdle(s: State, slot: nat, env: Env)
    requires Inv(s) && AcceptTask(s, slot, env) != s
    ensures AcceptedWork(AcceptTask(s, slot, env), slot)
  {
    assert Now(AcceptTask(s, slot, env), slot) == Now(s, slot);
  }

  lemma AcceptsWork(foreign: set<Agent>, cs: seq<Command>, s: State, slot: nat, env: Env)
    requires Leads(Initial(foreign), cs, s)
    requires AcceptTask(s, slot, env) != s
    ensures AcceptedWork(AcceptTask(s, slot, env), slot)
  {
    LeadsKeeps(foreign, cs, s);
    AcceptedIsIdle(s, slot, env);
  }

  /** The details of these slots count as read, and what was read stays read. */
  ghost predicate ReadNow(s: State, r: State, slots: set<nat>) {
    && (r.contract.Some? ==> forall i | i in slots :: DetailsRead(r, Now(r, i)))
    && (forall t | DetailsRead(s, t) :: DetailsRead(r, t))
  }

  lemma DeliveryIsRead(s: State, slots: set<nat>)
    ensures ReadNow(s, ReadReports(s, slots), slots)
  {
  }

  // ---------- rounds ----------

  lemma ScopesStayApart(foreign: set<Agent>, cs: seq<Command>, s: State, c: Command)
    requires Leads(Initial(foreign), cs, s)
    ensures Exclusive(Apply(s, c))
  {
    LeadsIsSound(foreign, cs, s);
    CommandBounded(s, c);
  }

  /** Six rows wait in a round of their own, nothing is under way, and no unfinished row of the round before is left. */
  ghost predicate FreshRound(s: State, r: State, tasks: seq<Task>) {
    && |tasks| == SLOTS && r.contract.Some? && r.contract.value.plan == s.plans && !AnyLive(r)
    && (forall i | 0 <= i < SLOTS ::
          Now(r, i) in r.work && r.work[Now(r, i)] == Row(tasks[i], Pending, None, false, None))
    && (s.contract.Some? ==> forall i | 0 <= i < SLOTS && Now(s, i) in s.work ::
          Now(s, i) in r.work && r.work[Now(s, i)].stage in {Accepted, Abandoned})
  }

  /** Every row of the round is over. */
  ghost predicate Over(s: State, m: State) {
    s.contract.Some? ==> forall i | 0 <= i < SLOTS && Now(s, i) in s.work ::
      Now(s, i) in m.work && m.work[Now(s, i)].stage in {Accepted, Abandoned}
  }

  lemma RoundOpened(s: State, m: State, c: Contract, tasks: seq<Task>)
    requires Shape(s) && !AnyLive(m) && m.plans == s.plans && |tasks| == SLOTS && Over(s, m)
    ensures FreshRound(s, NewRound(m, c, tasks), tasks)
  {
    var r := NewRound(m, c, tasks);
    forall i | 0 <= i < SLOTS
      ensures Now(r, i) in r.work && r.work[Now(r, i)] == Row(tasks[i], Pending, None, false, None)
    {
      assert Now(r, i) in FreshRows(m.plans, tasks, SLOTS);
    }
  }

  /** The crew starts on terms in order with a fresh round of six inspections of the evidence. */
  ghost predicate Started(s: State, r: State, terms: Terms, env: Env) {
    var tasks := LensTasks(PlanLenses, terms.evidencePaths);
    TermsOk(terms, env.files) && Admissible(tasks) && FreshRound(s, r, tasks) && Fits(r.contract.value, tasks)
  }

  lemma StartOpensRound(foreign: set<Agent>, cs: seq<Command>, s: State, revise: bool, terms: Terms, free: bool,
                        env: Env)
    requires Leads(Initial(foreign), cs, s)
    requires MayStart(s, revise, terms, free, env)
    ensures Started(s, Start(s, revise, terms, free, env), terms, env)
  {
    LeadsKeeps(foreign, cs, s);
    AgreedOpensRound(s, revise, terms, free, env);
  }

  lemma ClosedIsOver(s: State)
    ensures Over(s, Closed(s))
  {
  }

  lemma RoundKeepsBudget(s: State, c: Contract, tasks: seq<Task>)
    requires |tasks| == SLOTS && Fits(c, tasks)
    ensures Fits(NewRound(s, c, tasks).contract.value, tasks)
  {
  }

  lemma AgreedOpensRound(s: State, revise: bool, terms: Terms, free: bool, env: Env)
    requires Shape(s) && MayStart(s, revise, terms, free, env)
    ensures Started(s, Start(s, revise, terms, free, env), terms, env)
  {
    var tasks := LensTasks(PlanLenses, terms.evidencePaths);
    ClosedIsOver(s);
    RoundOpened(s, Closed(s), Agreed(terms), tasks);
    RoundKeepsBudget(Closed(s), Agreed(terms), tasks);
    StartedIsThis(s, NewRound(Closed(s), Agreed(terms), tasks), terms, env);
  }

  lemma StartedIsThis(s: State, r: State, terms: Terms, env: Env)
    requires var tasks := LensTasks(PlanLenses, terms.evidencePaths);
             TermsOk(terms, env.files) && Admissible(tasks) && FreshRound(s, r, tasks) && Fits(r.contract.value, tasks)
    ensures Started(s, r, terms, env)
  {
  }

  lemma AcceptRoundEnds(s: State, repairing: bool)
    requires s.contract.Some?
    ensures Over(s, AcceptRound(s, repairing))
  {
  }

  /** An admissible plan of six within the agreed outputs replaces a round that is over. */
  ghost predicate Advanced(s: State, r: State, tasks: seq<Task>) {
    Admissible(tasks) && FreshRound(s, r, tasks) && Assigned(r.contract.value, tasks) && Fits(r.contract.value, tasks)
  }

  lemma ExecuteOpensRound(foreign: set<Agent>, cs: seq<Command>, s: State, repair: bool, decision: string,
                          tasks: seq<Task>, env: Env)
    requires Leads(Initial(foreign), cs, s)
    requires MayExecute(s, repair, decision, tasks, env)
    ensures Advanced(s, Execute(s, repair, decision, tasks, env), tasks)
  {
    LeadsKeeps(foreign, cs, s);
    AdvanceOpensRound(s, repair, decision, tasks, env);
  }

  lemma AdvanceOpensRound(s: State, repair: bool, decision: string, tasks: seq<Task>, env: Env)
    requires Shape(s) && MayExecute(s, repair, decision, tasks, env)
    ensures Advanced(s, Execute(s, repair, decision, tasks, env), tasks)
  {
    AcceptRoundEnds(s, repair);
    var next := Executing(s.contract.value, decision);
    RoundOpened(s, AcceptRound(s, repair), next, tasks);
  }

  /** Six inspections begin of an artifact that the root's checks passed on. */
  ghost predicate Inspected(s: State, r: State, order: seq<Paths.Path>) {
    FreshRound(s, r, LensTasks(ReviewLenses, order)) && ReviewTasks(r) && exists k :: ReviewedSince(r, k)
  }

  lemma ReviewOpensRound(s: State, decision: string, order: seq<Paths.Path>, env: Env)
    requires Inv(s) && MayReview(s, decision, order, env)
    ensures FreshRound(s, Review(s, decision, order, env), LensTasks(ReviewLenses, order))
  {
    AcceptRoundEnds(s, false);
    var tasks, frozen := LensTasks(ReviewLenses, order), Frozen(s.contract.value, decision, env);
    RoundOpened(s, AcceptRound(s, false), frozen, tasks);
    SameRound(s, NewRound(AcceptRound(s, false), frozen, tasks), OpenReview(s, decision, order, env), tasks);
  }

  lemma SameRound(s: State, m: State, r: State, tasks: seq<Task>)
    requires FreshRound(s, m, tasks) && r == m.(log := r.log)
    ensures FreshRound(s, r, tasks)
  {
    assert forall i | 0 <= i < SLOTS :: Now(r, i) == Now(m, i);
  }

  lemma ReviewInspects(s: State, decision: string, order: seq<Paths.Path>, env: Env)
    requires Inv(s) && Recorded(s) && MayReview(s, decision, order, env)
    ensures Inspected(s, Review(s, decision, order, env), order)
  {
    ReviewOpensRound(s, decision, order, env);
    ReviewRecords(s, decision, order, env);
  }

  lemma ReviewIsOpened(foreign: set<Agent>, cs: seq<Command>, s: State, decision: string, order: seq<Paths.Path>,
                       env: Env)
    requires Leads(Initial(foreign), cs, s)
    requires MayReview(s, decision, order, env)
    ensures Inspected(s, Review(s, decision, order, env), order)
  {
    LeadsIsSound(foreign, cs, s);
    ReviewInspects(s, decision, order, env);
  }

  /** What is certified: one artifact, the checks that passed on it, six clear reports. */
  ghost predicate CertifiedAs(s: State) {
    IsComplete(s) && exists e, k :: Certifies(s, e) && CertifiedBy(s.log, e, k)
  }

  lemma CompletionCertifies(s: State, decision: string, env: Env)
    requires Recorded(s) && MayFinish(s, decision, env)
    ensures CertifiedAs(Finish(s, decision, env))
  {
    FinishRecords(s, decision, env);
    var e :| Certifies(Finish(s, decision, env), e);
    var k :| CertifiedBy(Finish(s, decision, env).log, e, k);
  }

  lemma CompletionIsCertified(foreign: set<Agent>, cs: seq<Command>, s: State, decision: string, env: Env)
    requires Leads(Initial(foreign), cs, s)
    requires MayFinish(s, decision, env)
    ensures CertifiedAs(Finish(s, decision, env))
  {
    LeadsIsSound(foreign, cs, s);
    CompletionCertifies(s, decision, env);
  }
}
