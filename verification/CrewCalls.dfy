/** Native calls of the fixed crew over whole runs: who is bound stays bound, spawns are never doubled, the dispatches
    of a ticket only grow, and late observations of an old dispatch move nothing. */
module CrewCalls {
  import opened Wrappers
  import Paths
  import Receipts
  import opened Work
  import opened Crew
  import opened CrewInv

  lemma {:induction false} RunAppend(s: State, a: seq<Command>, b: seq<Command>)
    ensures Run(s, a + b) == Run(Run(s, a), b)
    decreases |a|
  {
    if a == [] {
      assert [] + b == b;
    } else {
      assert (a + b)[0] == a[0] && (a + b)[1..] == a[1..] + b;
      RunAppend(Apply(s, a[0]), a[1..], b);
    }
  }

  // ---------- what no command undoes ----------

  /** Later tables name the same agent wherever the earlier ones name one. */
  ghost predicate KeepsAgents(s: State, r: State) {
    |r.members| == |s.members| &&
    forall k | 0 <= k < |s.members| && s.members[k].agent.Some? :: r.members[k].agent == s.members[k].agent
  }

  /** Calls are appended, what was asked is never rewritten, and what is over stays over. */
  ghost predicate KeepsCalls(ds: seq<Dispatch>, es: seq<Dispatch>) {
    |ds| <= |es| &&
    forall i | 0 <= i < |ds| ::
      es[i].call == ds[i].call && es[i].payload == ds[i].payload &&
      (Outstanding(es[i].state) ==> Outstanding(ds[i].state))
  }

  /** What a wait saw when it was issued stays, and so does its result. */
  ghost predicate KeepsWaits(s: State, r: State) {
    forall c | c in s.waits ::
      c in r.waits && r.waits[c].(result := None) == s.waits[c].(result := None) &&
      (s.waits[c].result.Some? ==> r.waits[c] == s.waits[c])
  }

  /** Rows stay, with their names and scopes; only writers ever change kind or get a checkout. */
  ghost predicate KeepsRows(s: State, r: State) {
    forall t | t in s.work ::
      t in r.work && r.work[t].task.id == s.work[t].task.id && r.work[t].task.paths == s.work[t].task.paths &&
      (s.work[t].task.kind != Implement ==>
         r.work[t].task == s.work[t].task && r.work[t].workspace == s.work[t].workspace)
  }

  /** The calls on record as refused before they started. */
  function Refused(s: State): set<CallId> {
    s.retried + set t | t in s.rejected :: s.rejected[t]
  }

  ghost predicate Later(s: State, r: State) {
    KeepsAgents(s, r) && KeepsCalls(s.dispatches, r.dispatches) && KeepsWaits(s, r) && KeepsRows(s, r) &&
    Refused(s) <= Refused(r) && s.retried <= r.retried && s.foreign <= r.foreign && s.log <= r.log && s.plans <= r.plans
  }

  lemma LaterTwice(s: State, m: State, r: State)
    requires Later(s, m) && Later(m, r)
    ensures Later(s, r)
  {
  }

  /** A command that writes none of the tables Later speaks of. */
  lemma SteadyIsLater(s: State, r: State)
    requires r.members == s.members && s.foreign <= r.foreign && r.dispatches == s.dispatches &&
             r.rejected == s.rejected && r.retried == s.retried && r.waits == s.waits && s.log <= r.log &&
             s.plans <= r.plans && KeepsRows(s, r)
    ensures Later(s, r)
  {
  }

  /** Rows only change stage, agent or result, or a writer is demoted or given its checkout. */
  ghost predicate RowsStay(s: State, r: State) {
    r.work.Keys == s.work.Keys &&
    forall t | t in s.work ::
      r.work[t].task.id == s.work[t].task.id && r.work[t].task.paths == s.work[t].task.paths &&
      (s.work[t].task.kind != Implement ==>
         r.work[t].task == s.work[t].task && r.work[t].workspace == s.work[t].workspace)
  }

  lemma NewRoundKeepsRows(s: State, m: State, c: Contract, tasks: seq<Task>)
    requires Shape(s) && RowsStay(s, m) && m.plans == s.plans && |tasks| == SLOTS
    ensures KeepsRows(s, NewRound(m, c, tasks))
  {
    var r := NewRound(m, c, tasks);
    assert forall t | t in m.work && t.plan != m.plans :: t in r.work && r.work[t] == m.work[t];
  }

  lemma StartIsLater(s: State, revise: bool, terms: Terms, free: bool, env: Env)
    requires Shape(s)
    ensures Later(s, Start(s, revise, terms, free, env))
  {
    if MayStart(s, revise, terms, free, env) {
      assert RowsStay(s, Closed(s));
      NewRoundKeepsRows(s, Closed(s), Agreed(terms), LensTasks(PlanLenses, terms.evidencePaths));
    }
    SteadyIsLater(s, Start(s, revise, terms, free, env));
  }

  lemma RowsStayTwice(s: State, m: State, r: State)
    requires RowsStay(s, m) && RowsStay(m, r)
    ensures RowsStay(s, r)
  {
  }

  lemma RowsStayKept(s: State, r: State)
    requires RowsStay(s, r)
    ensures KeepsRows(s, r)
  {
  }

  lemma ReserveSlotKeepsTasks(s: State, slot: nat, met: set<nat>)
    requires s.contract.Some?
    ensures RowsStay(s, ReserveSlot(s, slot, met))
  {
    if MayReserve(s, slot, met) {
      RestagedRow(s, Now(s, slot), Reserve(s.work[Now(s, slot)]));
    }
  }

  /** Replacing a row by one with the same task and checkout. */
  lemma RestagedRow(s: State, t: Ticket, row: Row)
    requires t in s.work && row.task == s.work[t].task && row.workspace == s.work[t].workspace
    ensures RowsStay(s, s.(work := s.work[t := row]))
  {
  }

  lemma {:induction false} ReserveKeepsTasks(s: State, slot: nat, met: set<nat>)
    requires s.contract.Some?
    ensures RowsStay(s, ReserveFrom(s, slot, met))
    decreases SLOTS - slot
  {
    if slot < SLOTS {
      var m := ReserveSlot(s, slot, met);
      ReserveSlotKeepsTasks(s, slot, met);
      ReserveKeepsTasks(m, slot + 1, met);
      RowsStayTwice(s, m, ReserveFrom(s, slot, met));
    }
  }

  lemma PreparedKeepsTasks(s: State, failing: set<nat>)
    requires s.contract.Some?
    ensures RowsStay(s, Prepared(s, failing))
  {
  }

  lemma NextKeepsTasks(s: State, failing: set<nat>, env: Env)
    ensures RowsStay(s, Next(s, failing, env))
  {
    if Ready(s, env) && s.contract.value.phase != COMPLETE {
      var reserved := ReserveFrom(s, 0, MetSlots(s));
      ReserveKeepsTasks(s, 0, MetSlots(s));
      PreparedKeepsTasks(reserved, failing);
      RowsStayTwice(s, reserved, Prepared(reserved, failing));
    }
  }

  lemma NextIsLater(s: State, failing: set<nat>, env: Env)
    ensures Later(s, Next(s, failing, env))
  {
    NextKeepsTasks(s, failing, env);
    RowsStayKept(s, Next(s, failing, env));
    SteadyIsLater(s, Next(s, failing, env));
  }

  lemma AcceptedRowsStay(s: State, repairing: bool)
    requires s.contract.Some?
    ensures RowsStay(s, AcceptRound(s, repairing))
  {
  }

  lemma ExecuteIsLater(s: State, repair: bool, decision: string, tasks: seq<Task>, env: Env)
    requires Shape(s)
    ensures Later(s, Execute(s, repair, decision, tasks, env))
  {
    if MayExecute(s, repair, decision, tasks, env) {
      var next := Executing(s.contract.value, decision);
      AcceptedRowsStay(s, repair);
      NewRoundKeepsRows(s, AcceptRound(s, repair), next, tasks);
    }
    SteadyIsLater(s, Execute(s, repair, decision, tasks, env));
  }

  lemma ReviewIsLater(s: State, decision: string, order: seq<Paths.Path>, env: Env)
    requires Shape(s)
    ensures Later(s, Review(s, decision, order, env))
  {
    if MayReview(s, decision, order, env) {
      var frozen, tasks := Frozen(s.contract.value, decision, env), LensTasks(ReviewLenses, order);
      AcceptedRowsStay(s, false);
      NewRoundKeepsRows(s, AcceptRound(s, false), frozen, tasks);
      assert Review(s, decision, order, env).work == NewRound(AcceptRound(s, false), frozen, tasks).work;
    }
    SteadyIsLater(s, Review(s, decision, order, env));
  }

  lemma FinishIsLater(s: State, decision: string, env: Env)
    ensures Later(s, Finish(s, decision, env))
  {
    SteadyIsLater(s, Finish(s, decision, env));
  }

  lemma AcknowledgeIsLater(s: State, i: nat, a: Agent)
    requires Answerable(s, i) && Seats(s, i, a)
    ensures Later(s, Acknowledged(s, i, a))
  {
  }

  lemma AnswerIsLater(s: State, call: CallId, answer: Answer)
    requires Inv(s)
    ensures Later(s, PostDispatch(s, call, answer))
  {
    var i := FindCall(s.dispatches, call);
    var r := PostDispatch(s, call, answer);
    AnswerCases(s, call, answer);
    if r != s && r != s.(dispatches := SetCall(s.dispatches, i.value, Unknown)) {
      var a :| Seats(s, i.value, a) && r == Acknowledged(s, i.value, a);
      AcknowledgeIsLater(s, i.value, a);
    }
  }

  lemma DispatchedIsLater(s: State, call: CallId, p: Payload)
    requires p.ticket in s.work && RightCall(s, p) && (s.work[p.ticket].stage != Reserved ==> p.ticket in s.requests)
    ensures Later(s, Dispatched(s, call, p))
  {
  }

  lemma DispatchIsLater(s: State, call: CallId, p: Payload, env: Env)
    ensures Later(s, PreDispatch(s, call, p, env))
  {
    if FindCall(s.dispatches, call).None? && MayDispatch(s, p, env) {
      DispatchedIsLater(s, call, p);
    }
  }

  /** A standing refusal is not overwritten: its ticket has no call that could be refused again. */
  lemma RefuseIsLater(s: State, call: CallId)
    requires Inv(s)
    ensures Later(s, Refuse(s, call))
  {
    var r := Refuse(s, call);
    if r != s {
      var t := s.dispatches[FindCall(s.dispatches, call).value].payload.ticket;
      assert t !in s.rejected;
      assert forall u | u in s.rejected :: r.rejected[u] == s.rejected[u];
    }
  }

  lemma ReconciledIsLater(s: State, call: CallId, receipt: Receipt)
    requires Inv(s)
    ensures Later(s, Reconciled(s, call, receipt))
  {
    if Heard(receipt).Receipt? {
      RefuseIsLater(s, call);
      AnswerIsLater(s, call, receipt.decode(Heard(receipt).output).answer);
    }
  }

  lemma RetryIsLater(s: State, slot: nat, env: Env)
    ensures Later(s, Retry(s, slot, env))
  {
    var r := Retry(s, slot, env);
    assert forall t | t in s.rejected ::
        s.rejected[t] in r.retried || (t in r.rejected && r.rejected[t] == s.rejected[t]);
  }

  lemma PreWaitIsLater(s: State, call: CallId, targets: seq<Agent>, env: Env)
    ensures Later(s, PreWait(s, call, targets, env))
  {
  }

  lemma PostWaitKeepsCalls(s: State, call: CallId, r: WaitResult)
    ensures KeepsCalls(s.dispatches, PostWait(s, call, r).dispatches)
  {
    if call in s.waits && r.statuses.Some? {
      ObserveAllKeepsCalls(s, call, s.waits[call], |r.statuses.value| == 1, r.statuses.value);
    }
  }

  lemma PostWaitKeepsWaits(s: State, call: CallId, r: WaitResult)
    ensures KeepsWaits(s, PostWait(s, call, r))
  {
  }

  lemma PostWaitKeepsTasks(s: State, call: CallId, r: WaitResult)
    ensures RowsStay(s, PostWait(s, call, r))
  {
    if call in s.waits && r.statuses.Some? {
      ObserveAllKeepsTasks(s, call, s.waits[call], |r.statuses.value| == 1, r.statuses.value);
    }
  }

  lemma PostWaitIsLater(s: State, call: CallId, r: WaitResult)
    ensures Later(s, PostWait(s, call, r))
  {
    PostWaitKeepsCalls(s, call, r);
    PostWaitKeepsWaits(s, call, r);
    PostWaitKeepsTasks(s, call, r);
    RowsStayKept(s, PostWait(s, call, r));
  }

  lemma ObserveOneKeepsCalls(s: State, call: CallId, w: Wait, lone: bool, key: string, status: Option<Native>)
    ensures var r := ObserveOne(s, call, w, lone, key, status);
            KeepsCalls(s.dispatches, r.dispatches) && |r.dispatches| == |s.dispatches|
  {
  }

  lemma {:induction false} ObserveAllKeepsCalls(s: State, call: CallId, w: Wait, lone: bool,
                                                statuses: seq<(string, Option<Native>)>)
    ensures var r := ObserveAll(s, call, w, lone, statuses);
            KeepsCalls(s.dispatches, r.dispatches) && |r.dispatches| == |s.dispatches|
    decreases |statuses|
  {
    if statuses != [] {
      ObserveOneKeepsCalls(s, call, w, lone, statuses[0].0, statuses[0].1);
      ObserveAllKeepsCalls(ObserveOne(s, call, w, lone, statuses[0].0, statuses[0].1), call, w, lone, statuses[1..]);
    }
  }

  lemma ObserveOneKeepsTasks(s: State, call: CallId, w: Wait, lone: bool, key: string, status: Option<Native>)
    ensures RowsStay(s, ObserveOne(s, call, w, lone, key, status))
  {
  }

  lemma {:induction false} ObserveAllKeepsTasks(s: State, call: CallId, w: Wait, lone: bool,
                                               statuses: seq<(string, Option<Native>)>)
    ensures RowsStay(s, ObserveAll(s, call, w, lone, statuses))
    decreases |statuses|
  {
    if statuses != [] {
      var m := ObserveOne(s, call, w, lone, statuses[0].0, statuses[0].1);
      ObserveOneKeepsTasks(s, call, w, lone, statuses[0].0, statuses[0].1);
      ObserveAllKeepsTasks(m, call, w, lone, statuses[1..]);
      RowsStayTwice(s, m, ObserveAll(s, call, w, lone, statuses));
    }
  }

  lemma HandBackIsLater(s: State, a: Agent, status: Status)
    ensures Later(s, HandBack(s, a, status))
  {
  }

  lemma IntegrateIsLater(s: State, slot: nat, env: Env)
    ensures Later(s, Integrate(s, slot, env))
  {
  }

  lemma AcceptIsLater(s: State, slot: nat, env: Env)
    ensures Later(s, AcceptTask(s, slot, env))
  {
    assert RowsStay(s, AcceptTask(s, slot, env));
    SteadyIsLater(s, AcceptTask(s, slot, env));
  }

  lemma JoinIsLater(s: State, a: Agent, t: Ticket, genuine: bool, env: Env)
    ensures Later(s, Join(s, a, t, genuine, env))
  {
  }

  lemma HostIsLater(s: State, h: HostCommand)
    requires Inv(s)
    ensures Later(s, ApplyHost(s, h))
  {
    match h
    case PreCall(call, p, env) => DispatchIsLater(s, call, p, env);
    case PostCall(call, answer) => AnswerIsLater(s, call, answer);
    case ForeignBinding(a) => SteadyIsLater(s, BindElsewhere(s, a));
    case Reconcile(call, receipt) => ReconciledIsLater(s, call, receipt);
    case RetryNative(slot, env) => RetryIsLater(s, slot, env);
  }

  lemma WaitIsLater(s: State, w: WaitCommand)
    ensures Later(s, ApplyWait(s, w))
  {
    match w
    case PreWaiting(call, targets, env) => PreWaitIsLater(s, call, targets, env);
    case PostWaiting(call, r) => PostWaitIsLater(s, call, r);
    case Recover(slot, env) => SteadyIsLater(s, PrepareRecovery(s, slot, env));
  }

  lemma WorkerIsLater(s: State, k: WorkerCommand)
    ensures Later(s, ApplyWorker(s, k))
  {
    match k
    case JoinCrew(a, t, genuine, env) => JoinIsLater(s, a, t, genuine, env);
    case SubmitReport(a, d, env) => SteadyIsLater(s, Submit(s, a, d, env));
    case Return(a, status) => HandBackIsLater(s, a, status);
  }

  lemma RootIsLater(s: State, r: RootCommand)
    ensures Later(s, ApplyRoot(s, r))
  {
    match r
    case IntegrateTask(slot, env) => IntegrateIsLater(s, slot, env);
    case AcceptOne(slot, env) => AcceptIsLater(s, slot, env);
    case Deliver(slots) => SteadyIsLater(s, ReadReports(s, slots));
  }

  lemma RoundIsLater(s: State, n: RoundCommand)
    requires Shape(s)
    ensures Later(s, ApplyRound(s, n))
  {
    match n
    case StartCrew(revise, terms, free, env) => StartIsLater(s, revise, terms, free, env);
    case NextCrew(failing, env) => NextIsLater(s, failing, env);
    case ExecuteCrew(repair, decision, tasks, env) => ExecuteIsLater(s, repair, decision, tasks, env);
    case ReviewCrew(decision, order, env) => ReviewIsLater(s, decision, order, env);
    case CompleteCrew(decision, env) => FinishIsLater(s, decision, env);
  }

  lemma CommandIsLater(s: State, c: Command)
    requires Inv(s)
    ensures Later(s, Apply(s, c))
  {
    match c
    case AtHost(h) => HostIsLater(s, h);
    case AtWait(w) => WaitIsLater(s, w);
    case ByWorker(k) => WorkerIsLater(s, k);
    case ByRoot(r) => RootIsLater(s, r);
    case AtRound(n) => RoundIsLater(s, n);
  }

  lemma {:induction false} RunIsLater(s: State, cs: seq<Command>)
    requires Inv(s)
    ensures Later(s, Run(s, cs))
    decreases |cs|
  {
    if cs != [] {
      CommandIsLater(s, cs[0]);
      ApplyKeeps(s, cs[0]);
      RunIsLater(Apply(s, cs[0]), cs[1..]);
      LaterTwice(s, Apply(s, cs[0]), Run(s, cs));
    }
  }

  // ---------- calls are kept whatever the state ----------

  lemma HostKeepsCalls(s: State, h: HostCommand)
    ensures KeepsCalls(s.dispatches, ApplyHost(s, h).dispatches)
  {
    match h
    case PreCall(call, p, env) => DispatchIsLater(s, call, p, env);
    case PostCall(call, answer) => AnswerKeepsCalls(s, call, answer);
    case ForeignBinding(a) =>
    case Reconcile(call, receipt) => ReconciledKeepsCalls(s, call, receipt);
    case RetryNative(slot, env) =>
  }

  lemma AnswerKeepsCalls(s: State, call: CallId, answer: Answer)
    ensures KeepsCalls(s.dispatches, PostDispatch(s, call, answer).dispatches)
  {
    var i := FindCall(s.dispatches, call);
    if i.Some? && Unresolved(s.dispatches[i.value]) {
      OpenCallStays(s.dispatches, i.value, Unknown);
      OpenCallStays(s.dispatches, i.value, InFlight);
      AnswerSetsOne(s, call, answer);
    }
  }

  lemma AnswerSetsOne(s: State, call: CallId, answer: Answer)
    requires FindCall(s.dispatches, call).Some?
    ensures var i := FindCall(s.dispatches, call).value;
            var ds := PostDispatch(s, call, answer).dispatches;
            ds == s.dispatches || ds == SetCall(s.dispatches, i, Unknown) || ds == SetCall(s.dispatches, i, InFlight)
  {
  }

  lemma OpenCallStays(ds: seq<Dispatch>, i: nat, state: CallState)
    requires i < |ds| && Outstanding(ds[i].state)
    ensures KeepsCalls(ds, SetCall(ds, i, state))
  {
  }

  lemma RefuseKeepsCalls(s: State, call: CallId)
    ensures KeepsCalls(s.dispatches, Refuse(s, call).dispatches)
  {
  }

  lemma ReconciledKeepsCalls(s: State, call: CallId, receipt: Receipt)
    ensures KeepsCalls(s.dispatches, Reconciled(s, call, receipt).dispatches)
  {
    if Heard(receipt).Receipt? {
      RefuseKeepsCalls(s, call);
      AnswerKeepsCalls(s, call, receipt.decode(Heard(receipt).output).answer);
    }
  }

  lemma RoundKeepsCalls(s: State, n: RoundCommand)
    ensures ApplyRound(s, n).dispatches == s.dispatches
  {
  }

  /** Calls are append-only under every command, in every state. */
  lemma CommandKeepsCalls(s: State, c: Command)
    ensures KeepsCalls(s.dispatches, Apply(s, c).dispatches)
  {
    match c
    case AtHost(h) => HostKeepsCalls(s, h);
    case AtWait(w) => WaitIsLater(s, w);
    case ByWorker(k) => WorkerIsLater(s, k);
    case ByRoot(r) => RootIsLater(s, r);
    case AtRound(n) => RoundKeepsCalls(s, n);
  }

  // ---------- identities ----------

  /** A bound identity is written once, whatever rounds and revisions follow, and never sits in two slots. */
  lemma BindingIsForEver(foreign: set<Agent>, before: seq<Command>, after: seq<Command>, k: nat, l: nat)
    requires var s := Run(Initial(foreign), before);
             k < SLOTS && l < SLOTS && |s.members| == SLOTS && s.members[k].agent.Some?
    ensures var s := Run(Initial(foreign), before);
            var r := Run(Initial(foreign), before + after);
            |r.members| == SLOTS && r.members[k].agent == s.members[k].agent &&
            s.members[k].agent.value !in r.foreign && (r.members[l].agent == s.members[k].agent ==> k == l)
  {
    ReachableCrew(foreign, before);
    ReachableCrew(foreign, before + after);
    RunAppend(Initial(foreign), before, after);
    RunIsLater(Run(Initial(foreign), before), after);
  }

  // ---------- refusals ----------

  ghost predicate RefusesNothing(s: State, r: State) {
    r.rejected == s.rejected && r.retried == s.retried
  }

  /** The command reconciles a call with a transcript that proves its refusal. */
  ghost predicate Proves(c: Command, call: CallId) {
    c.AtHost? && c.h.Reconcile? && c.h.call == call && ProvesRefusal(c.h.receipt, call)
  }

  /** At this place the transcript as it is now has the call's output with the exact text, and one of the readings found
      the call itself recorded before it. */
  ghost predicate RefusedAt(receipt: Receipt, at: nat, output: string) {
    && Receipts.OutputAt(receipt.file.text, receipt.parse, receipt.expected, at, output)
    && NotStarted(receipt.decode(output))
    && Receipts.Recorded(receipt.earlier + [receipt.file], receipt.parse, receipt.expected, at)
  }

  /** A proof of refusal is a line of the transcript: an output of this very call, with the exact text, after the
      call. */
  lemma RefusalIsOnRecord(receipt: Receipt, call: CallId)
    requires ProvesRefusal(receipt, call)
    ensures receipt.expected.callId == call
    ensures exists at, output :: RefusedAt(receipt, at, output)
  {
    Receipts.ReceiptIsRecorded(receipt.earlier, receipt.file, receipt.parse, receipt.expected, receipt.offset);
    var heard := Heard(receipt);
    assert RefusedAt(receipt, heard.start, heard.output);
  }

  lemma HostRefuses(s: State, h: HostCommand, call: CallId)
    requires call in Refused(ApplyHost(s, h))
    ensures call in Refused(s) || Proves(AtHost(h), call)
  {
  }

  lemma WaitRefusesNothing(s: State, w: WaitCommand)
    ensures RefusesNothing(s, ApplyWait(s, w))
  {
  }

  lemma WorkerRefusesNothing(s: State, k: WorkerCommand)
    ensures RefusesNothing(s, ApplyWorker(s, k))
  {
  }

  lemma RootRefusesNothing(s: State, r: RootCommand)
    ensures RefusesNothing(s, ApplyRoot(s, r))
  {
  }

  lemma RoundRefusesNothing(s: State, n: RoundCommand)
    ensures RefusesNothing(s, ApplyRound(s, n))
  {
  }

  lemma CommandRefuses(s: State, c: Command, call: CallId)
    requires call in Refused(Apply(s, c))
    ensures call in Refused(s) || Proves(c, call)
  {
    match c
    case AtHost(h) => HostRefuses(s, h, call);
    case AtWait(w) => WaitRefusesNothing(s, w);
    case ByWorker(k) => WorkerRefusesNothing(s, k);
    case ByRoot(r) => RootRefusesNothing(s, r);
    case AtRound(n) => RoundRefusesNothing(s, n);
  }

  /** Some command of the run reconciled the call with a transcript that proves its refusal. */
  ghost predicate Proven(cs: seq<Command>, call: CallId) {
    exists i :: 0 <= i < |cs| && Proves(cs[i], call)
  }

  /** A refusal on record was proven by the transcript of that very call. */
  lemma {:induction false} RunRefuses(s: State, cs: seq<Command>, call: CallId)
    requires call in Refused(Run(s, cs))
    ensures call in Refused(s) || Proven(cs, call)
    decreases |cs|
  {
    if cs != [] {
      RunRefuses(Apply(s, cs[0]), cs[1..], call);
      if call in Refused(Apply(s, cs[0])) {
        CommandRefuses(s, cs[0], call);
      } else {
        var i :| 0 <= i < |cs[1..]| && Proves(cs[1..][i], call);
        assert cs[i + 1] == cs[1..][i];
      }
    }
  }

  /** Never a second agent for a slot: of two spawns of one slot, the first was proven refused and its retry granted. */
  lemma NoSecondSpawn(foreign: set<Agent>, cs: seq<Command>, i: nat, j: nat, slot: nat)
    requires var ds := Run(Initial(foreign), cs).dispatches;
             i < j < |ds| && SpawnOf(ds[i], slot) && SpawnOf(ds[j], slot)
    ensures var s := Run(Initial(foreign), cs);
            s.dispatches[i].call in s.retried && Proven(cs, s.dispatches[i].call)
  {
    ReachableCrew(foreign, cs);
    RunRefuses(Initial(foreign), cs, Run(Initial(foreign), cs).dispatches[i].call);
  }
}
