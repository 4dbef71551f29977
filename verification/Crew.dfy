/** The fixed crew of crew.py, flow.py and native_receipts.py (wire protocol V1, one root) as a value:
    its tables, and what each command does to them. A refused command changes nothing. */
module Crew {
  import opened Files
  import opened Wrappers
  import opened Paths
  import opened Plans
  import opened Texts
  import opened Capsules
  import opened Work
  import Ledger
  import Receipts

  const SLOTS: nat := 6
  const MAX_RECOVERIES: nat := 2

  type Agent = string
  type CallId = string

  /** A reservation is issued once per task and round under a fresh identifier, so plan and slot name it. */
  datatype Ticket = Ticket(plan: nat, slot: nat)

  datatype Phase = PLAN | EXECUTE | REVIEW | COMPLETE

  /** What crew-start agrees on; optional, protected and working are roles of the resource registry. */
  datatype Terms = Terms(goal: string, requirements: seq<string>, evidencePaths: seq<Path>, outputPaths: seq<Path>,
                         optional: set<Path>, protected: set<Path>, working: set<Path>)

  datatype Contract = Contract(phase: Phase, round: nat, plan: nat, goal: string, decision: Option<string>,
                               requirements: seq<string>, evidencePaths: seq<Path>, outputPaths: seq<Path>,
                               reviewPaths: set<Path>, snapshot: Snapshot, reviewTask: Option<Ledger.Task>)

  function Agreed(terms: Terms): Contract {
    Contract(PLAN, 1, 0, terms.goal, None, terms.requirements, terms.evidencePaths, terms.outputPaths, {}, map[], None)
  }

  /** worker says whether the bound agent has joined, which records its session key. */
  datatype Member = Member(agent: Option<Agent>, worker: bool)

  datatype Handback = Handback(status: Status, worker: Option<Agent>, integrated: bool)

  datatype Row = Row(task: Task, stage: Stage, agent: Option<Agent>, workspace: bool, result: Option<Handback>)

  datatype CallKind = Spawn | Send

  datatype Text = Assignment(body: string) | RecoverText(attempt: nat) | ReassessText

  /** A native call that names its ticket. */
  datatype Payload = Payload(kind: CallKind, target: Option<Agent>, ticket: Ticket, text: Text)

  datatype CallState = Unacknowledged | InFlight | Unknown | CallReturned | CallFailed

  datatype Dispatch = Dispatch(call: CallId, payload: Payload, state: CallState)

  predicate Outstanding(s: CallState) {
    s == Unacknowledged || s == InFlight || s == Unknown
  }

  datatype Verdict = Clear | Issues | BlockedReport

  /** references are the cited files with their contents, cited the requirements, absent the paths found missing;
      sources is what the dependencies looked like when the report was written. */
  datatype Report = Report(agent: Agent, round: nat, verdict: Verdict, covers: set<nat>,
                           references: Files, cited: set<nat>, absent: set<Path>, lengthy: bool,
                           dependencies: set<Path>, sources: Snapshot)

  datatype Meta = Meta(ticket: Ticket, round: nat)

  datatype Native = Completed | Errored | Interrupted | Shutdown | NotFound | NativeRunning | PendingInit

  datatype Observation = Observation(state: Native, agent: Option<Agent>, epoch: seq<CallId>, plan: nat, call: CallId)

  datatype Saved = Saved(ticket: Ticket, epoch: seq<CallId>)

  /** One status line of a wait result; None is an unrecognised status. */
  datatype WaitResult = WaitResult(error: bool, statuses: Option<seq<(string, Option<Native>)>>, timedOut: bool)

  datatype Wait = Wait(plan: nat, targets: seq<Agent>, snapshot: map<Agent, Saved>, result: Option<WaitResult>)

  datatype Request = Request(count: nat, payload: Payload, plan: nat, call: CallId, epoch: seq<CallId>,
                             reassess: bool, seen: Snapshot)

  /** What the history of a run must show; nothing reads it. */
  datatype Event =
    | Reviewed(plan: nat, paths: set<Path>, frozen: Snapshot, ledger: Ledger.State, checks: Ledger.Env)
    | Reported(ticket: Ticket, report: Report, artifact: Snapshot)
    | Certified(plan: nat, requirements: seq<string>, artifact: Snapshot, agents: seq<Agent>,
                ledger: Ledger.State, checks: Ledger.Env)

  datatype State = State(
    contract: Option<Contract>,
    plans: nat,
    members: seq<Member>,
    foreign: set<Agent>,              // agents bound by other roots
    work: map<Ticket, Row>,
    dispatches: seq<Dispatch>,        // crew_calls joined with dispatches, in insertion order
    rejected: map<Ticket, CallId>,    // proven pre-start refusals that still block their ticket
    retried: set<CallId>,             // proven pre-start refusals a retry was granted for
    waits: map<CallId, Wait>,
    observed: map<Ticket, Observation>,
    requests: map<Ticket, Request>,
    recoveries: map<Ticket, nat>,
    metas: map<Agent, Meta>,
    reports: map<Ticket, Report>,
    delivered: map<Ticket, Report>,
    log: seq<Event>)

  function Initial(foreign: set<Agent>): State {
    State(None, 0, seq(SLOTS, i => Member(None, false)), foreign, map[], [], map[], {},
          map[], map[], map[], map[], map[], map[], map[], [])
  }

  /** What a command finds outside the tables: the request is still the contract's, no check runs, the root's files, the
      checkouts of writers, the root's evidence. */
  datatype Env = Env(current: bool, quiet: bool, files: Files, checkouts: map<Ticket, Files>, evidence: Evidence)

  /** The root's ledger with the machine its checks run on; the files changed since the baseline, if all were seen;
      whether a research study is drained and finished; whether the last claim is of the present generation. */
  datatype Evidence = Evidence(ledger: Ledger.State, machine: Ledger.Spec -> Option<string>, broken: set<nat>,
                               changed: set<Path>, whole: bool, drained: bool, finished: bool, current: bool)

  function Checks(env: Env): Ledger.Env {
    Ledger.Env(env.files, env.evidence.machine, env.evidence.broken)
  }

  /** Everything the checks of a task look at or expect to be absent. */
  function Dependencies(task: Ledger.Task): set<Path> {
    set c, p | c in task.checks && p in c.execution.dependencies + c.execution.absent :: p
  }

  /** Crew._root_evidence */
  predicate RootEvidence(c: Contract, env: Env, finish: bool) {
    var e := env.evidence;
    && env.quiet && e.drained && (finish ==> e.finished)
    && e.ledger.task.Some? && e.ledger.task.value.requirements == c.requirements
    && Ledger.Passed(e.ledger, Checks(env))
    && AllWithin(Dependencies(e.ledger.task.value), set p | p in c.outputPaths)
    && e.whole && AllWithin(Dependencies(e.ledger.task.value), e.changed)
    && (finish ==> e.current && TestedClaim(e.ledger, Checks(env)))
  }

  /** The ledger shows a valid claim of tested completion. */
  predicate TestedClaim(l: Ledger.State, checks: Ledger.Env) {
    Ledger.ShownClaim(l, checks).Some? && Ledger.ShownClaim(l, checks).value.kind == Ledger.Tested &&
    Ledger.ShownClaim(l, checks).value.valid
  }

  // ---------- reading ----------

  predicate TicketLive(s: State, t: Ticket) {
    exists i :: 0 <= i < |s.dispatches| && s.dispatches[i].payload.ticket == t && Outstanding(s.dispatches[i].state)
  }

  predicate AnyLive(s: State) {
    exists i :: 0 <= i < |s.dispatches| && Outstanding(s.dispatches[i].state)
  }

  /** The dispatches ever authorised for a ticket, in order. */
  function Epoch(ds: seq<Dispatch>, t: Ticket): seq<CallId> {
    if ds == [] then []
    else
      var last := ds[|ds| - 1];
      Epoch(ds[..|ds| - 1], t) + if last.payload.ticket == t then [last.call] else []
  }

  function FindCall(ds: seq<Dispatch>, call: CallId): (i: Option<nat>)
    ensures i.Some? ==> i.value < |ds| && ds[i.value].call == call
    ensures i.None? ==> forall k | 0 <= k < |ds| :: ds[k].call != call
  {
    if ds == [] then None
    else if ds[|ds| - 1].call == call then Some(|ds| - 1)
    else FindCall(ds[..|ds| - 1], call)
  }

  function Recoveries(s: State, t: Ticket): nat {
    if t in s.recoveries then s.recoveries[t] else 0
  }

  /** The ticket of a slot in the current round. */
  function Now(s: State, slot: nat): Ticket
    requires s.contract.Some?
  {
    Ticket(s.contract.value.plan, slot)
  }

  predicate HasRow(s: State, slot: nat)
    requires s.contract.Some?
  {
    slot < SLOTS && slot < |s.members| && Now(s, slot) in s.work
  }

  /** An open contract whose commands are accepted. */
  predicate Ready(s: State, env: Env) {
    s.contract.Some? && env.current
  }

  // ---------- rounds ----------

  /** The pending rows of the first n tasks of a plan. */
  function FreshRows(plan: nat, tasks: seq<Task>, n: nat): (rows: map<Ticket, Row>)
    requires n <= |tasks|
    ensures forall t :: t in rows <==> t.plan == plan && t.slot < n
    ensures forall t | t in rows :: rows[t] == Row(tasks[t.slot], Pending, None, false, None)
  {
    map i | 0 <= i < n :: Ticket(plan, i) := Row(tasks[i], Pending, None, false, None)
  }

  lemma OneMoreRow(plan: nat, tasks: seq<Task>, i: nat)
    requires i < |tasks|
    ensures FreshRows(plan, tasks, i + 1) ==
            FreshRows(plan, tasks, i)[Ticket(plan, i) := Row(tasks[i], Pending, None, false, None)]
  {
  }

  /** Six fresh tasks become the current plan. */
  function NewRound(s: State, c: Contract, tasks: seq<Task>): State
    requires |tasks| == SLOTS
  {
    s.(contract := Some(c.(plan := s.plans)), plans := s.plans + 1, work := s.work + FreshRows(s.plans, tasks, SLOTS))
  }

  /** Crew._tasks: six investigations, each through its own lens. */
  function LensTasks(of: Lenses, paths: seq<Path>): (ts: seq<Task>)
    ensures |ts| == SLOTS
  {
    seq(SLOTS, i requires 0 <= i < SLOTS => Task(SlotName(i), Investigate, paths, [], Lens(of, i)))
  }

  /** Crew._round: the capsules of the round keep their budget. */
  predicate Fits(c: Contract, tasks: seq<Task>) {
    CapsulesFit(c.goal, c.requirements, c.decision, tasks)
  }

  /** A decision of the root, as it must come with every transition. */
  predicate Decision(x: string) {
    TextOk(x, 8000)
  }

  /** s1 to s6 */
  function SlotName(i: nat): string {
    if i < SLOTS then ['s', (49 + i) as char] else ""
  }

  /** Crew._idle */
  predicate Idle(s: State, env: Env) {
    !AnyLive(s) && env.quiet
  }

  predicate Settled(s: State) {
    s.contract.None? || forall i | 0 <= i < SLOTS && Now(s, i) in s.work :: !Active(s.work[Now(s, i)].stage)
  }

  function Abandon(row: Row, replaced: bool): Row {
    if replaced && row.stage != Accepted && row.stage != Abandoned then row.(stage := Abandoned) else row
  }

  /** Unfinished rows of the old round are abandoned. */
  function Closed(s: State): State {
    if s.contract.None? then s
    else s.(work := map t | t in s.work :: Abandon(s.work[t], t.plan == s.contract.value.plan))
  }

  /** Paths below the root that are not control files. */
  predicate Narrow(p: Path) {
    Normal(p) && Split(p)[0] !in CONTROL
  }

  predicate Apart(p: Path, o: Path) {
    !Covers(p, o) && !Covers(o, p)
  }

  /** prepare.prepare: roles are narrow lists, required inputs exist, what is written lies neither in nor around what is
      protected. */
  predicate Registered(terms: Terms, fs: Files) {
    && |terms.optional| <= MAX_PATHS && |terms.protected| <= MAX_PATHS && |terms.working| <= MAX_PATHS
    && (forall p | p in terms.optional + terms.protected + terms.working :: Narrow(p))
    && (forall p | p in terms.evidencePaths :: p in terms.optional || Present(fs, p))
    && (forall p, o | p in terms.protected && o in terms.outputPaths :: Apart(p, o))
    && (forall p, o | p in terms.protected && o in terms.working :: Apart(p, o))
  }

  predicate TermsOk(terms: Terms, fs: Files) {
    && TextOk(terms.goal, 12000)
    && 1 <= |terms.requirements| <= 64 && TextsOk(terms.requirements, 3000)
    && (forall i, j | 0 <= i < j < |terms.requirements| :: terms.requirements[i] != terms.requirements[j])
    && PathsOk(terms.evidencePaths) && (forall p | p in terms.evidencePaths :: Narrow(p))
    && PathsOk(terms.outputPaths) && (forall p | p in terms.outputPaths :: Narrow(p))
    && Registered(terms, fs)
  }

  /** Starting over an open contract is refused, whether it is the same one or not. free: before the first start there
      is no unfinished dynamic team and the baseline is complete. */
  ghost predicate MayStart(s: State, revise: bool, terms: Terms, free: bool, env: Env) {
    && TermsOk(terms, env.files) && Admissible(LensTasks(PlanLenses, terms.evidencePaths))
    && Fits(Agreed(terms), LensTasks(PlanLenses, terms.evidencePaths))
    && Idle(s, env) && (s.contract.Some? && s.contract.value.phase != COMPLETE ==> revise)
    && Settled(s) && (s.contract.None? ==> free)
  }

  /** crew-start, or crew-revise. */
  ghost function Start(s: State, revise: bool, terms: Terms, free: bool, env: Env): (z: State)
    ensures z == s.(contract := z.contract, plans := z.plans, work := z.work)
  {
    if !MayStart(s, revise, terms, free, env) then s
    else NewRound(Closed(s), Agreed(terms), LensTasks(PlanLenses, terms.evidencePaths))
  }

  // ---------- reservation ----------

  predicate DependenciesMet(s: State, t: Task)
    requires s.contract.Some?
  {
    forall d | d in t.dependsOn ::
      exists i :: 0 <= i < SLOTS && SlotName(i) == d && Now(s, i) in s.work && s.work[Now(s, i)].stage == Accepted
  }

  predicate Contended(s: State, t: Task)
    requires s.contract.Some?
  {
    exists i :: 0 <= i < SLOTS && Now(s, i) in s.work && Occupies(s.work[Now(s, i)].stage) &&
                Clash(t, s.work[Now(s, i)].task)
  }

  /** A pending task whose dependencies are met, as was computed before the loop, and if it writes, whose scope is
      free. */
  predicate MayReserve(s: State, slot: nat, met: set<nat>)
    requires s.contract.Some?
  {
    var t := Now(s, slot);
    t in s.work && s.work[t].stage == Pending && slot in met &&
    !(s.work[t].task.kind == Implement && Contended(s, s.work[t].task))
  }

  function Reserve(row: Row): Row {
    row.(stage := Reserved)
  }

  /** One row of Crew.next. */
  function ReserveSlot(s: State, slot: nat, met: set<nat>): (r: State)
    requires s.contract.Some?
    ensures r == s.(work := r.work)
  {
    if MayReserve(s, slot, met) then s.(work := s.work[Now(s, slot) := Reserve(s.work[Now(s, slot)])]) else s
  }

  function ReserveFrom(s: State, slot: nat, met: set<nat>): (r: State)
    requires s.contract.Some?
    ensures r == s.(work := r.work)
    decreases SLOTS - slot
  {
    if slot >= SLOTS then s else ReserveFrom(ReserveSlot(s, slot, met), slot + 1, met)
  }

  /** A reserved writer gets its checkout, or falls back to a read-only proposal, of which a note before its description
      tells. */
  function PrepareRow(row: Row, fails: bool): Row {
    if row.stage != Reserved || row.workspace || row.task.kind != Implement then row
    else if fails then row.(task := row.task.(kind := Investigate))
    else row.(workspace := true)
  }

  function Prepared(s: State, failing: set<nat>): State
    requires s.contract.Some?
  {
    s.(work := map t | t in s.work ::
         if t.plan == s.contract.value.plan && t.slot < SLOTS then PrepareRow(s.work[t], t.slot in failing)
         else s.work[t])
  }

  function MetSlots(s: State): set<nat>
    requires s.contract.Some?
  {
    set i | 0 <= i < SLOTS && Now(s, i) in s.work && DependenciesMet(s, s.work[Now(s, i)].task)
  }

  function Next(s: State, failing: set<nat>, env: Env): (z: State)
    ensures z == s.(work := z.work)
  {
    if !Ready(s, env) || s.contract.value.phase == COMPLETE then s
    else Prepared(ReserveFrom(s, 0, MetSlots(s)), failing)
  }

  // ---------- dispatch ----------

  /** The workspace assigned to a row: its own checkout, or the root's. */
  function Ground(s: State, t: Ticket, env: Env): Files
    requires t in s.work
  {
    if !s.work[t].workspace then env.files else if t in env.checkouts then env.checkouts[t] else map[]
  }

  /** Flow.authorize_recovery: the conditions, in the transaction of the dispatch that uses them. */
  predicate MayRecover(s: State, p: Payload, env: Env)
    requires s.contract.Some? && p.ticket in s.work
  {
    var t := p.ticket;
    var row := s.work[t];
    && p.kind == Send && row.stage == Returned
    && t in s.requests && t in s.observed
    && var request := s.requests[t];
    && s.observed[t].state == Completed
    && request.plan == s.contract.value.plan
    && request.epoch == Epoch(s.dispatches, t)
    && request.call == s.observed[t].call
    && request.payload == p
    && request.count == Recoveries(s, t) + 1
    && Recoveries(s, t) < MAX_RECOVERIES
    && if request.reassess then
         t in s.reports && s.reports[t].verdict == BlockedReport &&
         var now := Fingerprint(Ground(s, t, env), s.reports[t].dependencies);
         s.reports[t].sources != now && request.seen == now
       else
         !(row.result.Some? && row.result.value.status in {Status.Partial, Status.Blocked}) &&
         !(t in s.reports && (s.reports[t].verdict == BlockedReport ||
                              (row.result.Some? && row.result.value.status in {Status.Analysis, Status.Tested})))
  }

  function Reopened(s: State, t: Ticket): State
    requires t in s.work && t in s.requests
  {
    s.(recoveries := s.recoveries[t := Recoveries(s, t) + 1],
       reports := if s.requests[t].reassess then s.reports - {t} else s.reports,
       work := s.work[t := s.work[t].(stage := Reserved, result := None)])
  }

  /** validate_dispatch: a bound slot is sent input, an unbound one is spawned. */
  predicate RightCall(s: State, p: Payload) {
    p.ticket.slot < |s.members| &&
    var bound := s.members[p.ticket.slot].agent;
    p.target == bound && p.kind == if bound.Some? then Send else Spawn
  }

  /** The ticket may be dispatched as far as its own row goes, once reopened if it must be. */
  predicate Addressed(s: State, p: Payload, env: Env) {
    && Ready(s, env) && s.contract.value.phase != COMPLETE
    && p.ticket.plan == s.contract.value.plan && p.ticket in s.work && s.work[p.ticket].stage != Pending
    && p.ticket !in s.rejected
    && (s.work[p.ticket].stage != Reserved ==> MayRecover(s, p, env))
  }

  /** The checks that follow the reopening of a row. */
  predicate Unhindered(s: State, p: Payload)
    requires p.ticket in s.work
  {
    && (s.work[p.ticket].task.kind == Implement ==> s.work[p.ticket].workspace)
    && !TicketLive(s, p.ticket) && RightCall(s, p)
  }

  /** Crew.pre_dispatch, after the replay of a known call was ruled out. */
  predicate MayDispatch(s: State, p: Payload, env: Env) {
    Addressed(s, p, env) && Unhindered(s, p)
  }

  function Dispatched(s: State, call: CallId, p: Payload): State
    requires p.ticket in s.work && RightCall(s, p) && (s.work[p.ticket].stage != Reserved ==> p.ticket in s.requests)
  {
    var r := if s.work[p.ticket].stage == Reserved then s else Reopened(s, p.ticket);
    var row := r.work[p.ticket];
    r.(work := r.work[p.ticket := if p.target.Some? then row.(agent := p.target) else row],
       dispatches := r.dispatches + [Dispatch(call, p, Unacknowledged)])
  }

  function PreDispatch(s: State, call: CallId, p: Payload, env: Env): (z: State)
    ensures z == s.(work := z.work, dispatches := z.dispatches, recoveries := z.recoveries, reports := z.reports)
  {
    if FindCall(s.dispatches, call).Some? || !MayDispatch(s, p, env) then s else Dispatched(s, call, p)
  }

  /** The parts of a native answer that the acknowledgement rules read. */
  datatype Answer = Answer(agent: Option<Agent>, submission: bool, error: bool)

  function SetCall(ds: seq<Dispatch>, i: nat, state: CallState): seq<Dispatch>
    requires i < |ds|
  {
    ds[i := ds[i].(state := state)]
  }

  /** UPDATE dispatches SET state=? WHERE ticket=? */
  function SetCalls(ds: seq<Dispatch>, t: Ticket, state: CallState): seq<Dispatch> {
    seq(|ds|, i requires 0 <= i < |ds| => if ds[i].payload.ticket == t then ds[i].(state := state) else ds[i])
  }

  predicate Unresolved(d: Dispatch) {
    d.state == Unacknowledged || d.state == Unknown
  }

  /** The dispatch an answer belongs to, if it is still open and of the current round. */
  predicate Answerable(s: State, i: nat) {
    i < |s.dispatches| && Unresolved(s.dispatches[i]) && s.contract.Some? &&
    var t := s.dispatches[i].payload.ticket;
    t.plan == s.contract.value.plan && t in s.work && t.slot < |s.members|
  }

  predicate TakenElsewhere(s: State, a: Agent, slot: nat) {
    a in s.foreign || exists k :: 0 <= k < |s.members| && k != slot && s.members[k].agent == Some(a)
  }

  function Acknowledged(s: State, i: nat, a: Agent): State
    requires Answerable(s, i)
  {
    var t := s.dispatches[i].payload.ticket;
    s.(members := s.members[t.slot := s.members[t.slot].(agent := Some(a))],
       work := s.work[t := s.work[t].(agent := Some(a), stage := Running)],
       dispatches := SetCall(s.dispatches, i, InFlight))
  }

  function PostDispatch(s: State, call: CallId, answer: Answer): (z: State)
    ensures z == s.(members := z.members, work := z.work, dispatches := z.dispatches)
  {
    var i := FindCall(s.dispatches, call);
    if i.None? || !Answerable(s, i.value) then s
    else
      var d := s.dispatches[i.value];
      var bound := s.members[d.payload.ticket.slot].agent;
      var agent := if d.payload.kind == Spawn then answer.agent else bound;
      var good := if d.payload.kind == Spawn then agent.Some? else agent.Some? && answer.submission;
      if !good || answer.error then s.(dispatches := SetCall(s.dispatches, i.value, Unknown))
      else if d.payload.kind == Spawn && TakenElsewhere(s, agent.value, d.payload.ticket.slot) then s
      else if d.payload.kind == Spawn && bound.Some? && bound != agent then s
      else Acknowledged(s, i.value, agent.value)
  }

  /** Another root binds an agent no slot of this one has; the roster table is shared and its agents are unique. */
  function BindElsewhere(s: State, a: Agent): (z: State)
    ensures z == s.(foreign := z.foreign)
  {
    if exists k :: 0 <= k < |s.members| && s.members[k].agent == Some(a) then s else s.(foreign := s.foreign + {a})
  }

  /** reconcile, on the exact transcript receipt that a spawn was refused before it started. */
  function Refuse(s: State, call: CallId): (z: State)
    ensures z == s.(dispatches := z.dispatches, rejected := z.rejected)
  {
    var i := FindCall(s.dispatches, call);
    if i.None? || !Answerable(s, i.value) || s.dispatches[i.value].payload.kind != Spawn then s
    else
      var t := s.dispatches[i.value].payload.ticket;
      if s.work[t].agent.Some? then s
      else s.(dispatches := SetCall(s.dispatches, i.value, CallFailed), rejected := s.rejected[t := call])
  }

  /** An output as native_receipts._body decodes it: its text, if it is one, and what it means as an answer. */
  datatype Body = Body(text: Option<string>, answer: Answer)

  /** The host's transcript of a call: as it is read now, as it was at the earlier readings, and where the first one
      began. */
  datatype Receipt = Receipt(file: Receipts.File, earlier: seq<Receipts.File>, offset: nat, parse: Receipts.Parser,
                             expected: Receipts.Expected, decode: string -> Body)

  const NO_START := {"collab spawn failed: agent thread limit reached"}

  function Heard(r: Receipt): Receipts.Outcome {
    Receipts.ReadOn(r.earlier, r.file, r.parse, r.expected, r.offset)
  }

  /** native_receipts.definitely_not_started */
  predicate NotStarted(body: Body) {
    body.text.Some? && Strip(body.text.value) in NO_START
  }

  /** The transcript answers this very call with the exact text of a refusal before the start. */
  predicate ProvesRefusal(r: Receipt, call: CallId) {
    r.expected.callId == call && Heard(r).Receipt? && NotStarted(r.decode(Heard(r).output))
  }

  /** native_receipts.reconcile on one open call: a proven refusal, or a recovered answer. */
  function Reconciled(s: State, call: CallId, receipt: Receipt): (z: State)
    ensures z == s.(members := z.members, work := z.work, dispatches := z.dispatches, rejected := z.rejected)
  {
    var i := FindCall(s.dispatches, call);
    if i.None? || !Unresolved(s.dispatches[i.value]) || receipt.expected.callId != call || !Heard(receipt).Receipt?
    then s
    else if s.dispatches[i.value].payload.kind == Spawn && ProvesRefusal(receipt, call) then Refuse(s, call)
    else PostDispatch(s, call, receipt.decode(Heard(receipt).output).answer)
  }

  function Retry(s: State, slot: nat, env: Env): (z: State)
    ensures z == s.(rejected := z.rejected, retried := z.retried)
  {
    if !Ready(s, env) || !HasRow(s, slot) then s
    else
      var t := Now(s, slot);
      if t !in s.rejected || TicketLive(s, t) || s.work[t].stage != Reserved || s.work[t].agent.Some? ||
         s.members[slot].agent.Some?
      then s
      else s.(retried := s.retried + {s.rejected[t]}, rejected := s.rejected - {t})
  }

  // ---------- observation and recovery ----------

  /** The row of the current round that carries an agent. */
  function SlotOf(s: State, a: Agent, from: nat := 0): (r: Option<nat>)
    requires s.contract.Some?
    ensures r.Some? ==> r.value < SLOTS && Now(s, r.value) in s.work && s.work[Now(s, r.value)].agent == Some(a)
    ensures r.None? ==> forall k | from <= k < SLOTS && Now(s, k) in s.work :: s.work[Now(s, k)].agent != Some(a)
    decreases SLOTS - from
  {
    if from >= SLOTS then None
    else if Now(s, from) in s.work && s.work[Now(s, from)].agent == Some(a) then Some(from)
    else SlotOf(s, a, from + 1)
  }

  predicate WaitTargets(s: State, targets: seq<Agent>)
    requires s.contract.Some?
  {
    && 1 <= |targets| <= SLOTS
    && (forall i, j | 0 <= i < j < |targets| :: targets[i] != targets[j])
    && (forall a | a in targets :: SlotOf(s, a).Some? && s.work[Now(s, SlotOf(s, a).value)].stage != Pending)
  }

  /** Each target's ticket, with the dispatches it has now. */
  function SnapshotOf(s: State, targets: seq<Agent>): map<Agent, Saved>
    requires s.contract.Some? && forall a | a in targets :: SlotOf(s, a).Some?
  {
    map a | a in targets :: var t := Now(s, SlotOf(s, a).value); Saved(t, Epoch(s.dispatches, t))
  }

  function PreWait(s: State, call: CallId, targets: seq<Agent>, env: Env): (z: State)
    ensures z == s.(waits := z.waits)
  {
    if !Ready(s, env) || call in s.waits || !WaitTargets(s, targets) then s
    else
      s.(waits := s.waits[call := Wait(s.contract.value.plan, targets, SnapshotOf(s, targets), None)])
  }

  predicate Terminal(n: Native) {
    n in {Errored, Interrupted, Shutdown, NotFound}
  }

  /** Whether a status moves a row, and where to. */
  function Landing(n: Native, stage: Stage): Option<Stage> {
    if n == Completed && Active(stage) then Some(Returned)
    else if Terminal(n) && (Active(stage) || stage == Returned || stage == Accepted) then Some(Failed)
    else None
  }

  /** The agent one status speaks about: the key itself, or the only target when one internal path answers for it. */
  function Resolve(w: Wait, lone: bool, key: string): Option<Agent> {
    if key in w.snapshot then Some(key)
    else if lone && |w.targets| == 1 && key != "" && key[0] == '/' then Some(w.targets[0])
    else None
  }

  /** A row ends natively: nothing is verified yet, and all its dispatches close. */
  function Land(s: State, t: Ticket, stage: Stage): (r: State)
    requires t in s.work
    ensures r == s.(work := r.work, dispatches := r.dispatches)
  {
    s.(work := s.work[t := s.work[t].(stage := stage, result := Some(Handback(Status.Unverified, None, false)))],
       dispatches := SetCalls(s.dispatches, t, if stage == Returned then CallReturned else CallFailed))
  }

  /** A status counts only if the row is of the wait's plan and agent and its dispatches are those the wait saw. */
  predicate Counts(s: State, w: Wait, a: Agent)
    requires a in w.snapshot
  {
    var t := w.snapshot[a].ticket;
    Epoch(s.dispatches, t) == w.snapshot[a].epoch && t in s.work && t.plan == w.plan && s.work[t].agent == Some(a)
  }

  function Noted(s: State, call: CallId, w: Wait, a: Agent, status: Native): State
    requires a in w.snapshot
  {
    s.(observed := s.observed[w.snapshot[a].ticket := Observation(status, Some(a), w.snapshot[a].epoch, w.plan, call)])
  }

  /** A native status of one snapshotted agent. */
  function Observe(s: State, call: CallId, w: Wait, a: Agent, status: Native): (r: State)
    requires a in w.snapshot
    ensures r == s.(work := r.work, observed := r.observed, dispatches := r.dispatches)
  {
    if !Counts(s, w, a) then s
    else
      var t := w.snapshot[a].ticket;
      match Landing(status, s.work[t].stage)
      case None => Noted(s, call, w, a, status)
      case Some(stage) => Land(Noted(s, call, w, a, status), t, stage)
  }

  /** One entry of the status loop of post_wait. */
  function ObserveOne(s: State, call: CallId, w: Wait, lone: bool, key: string, status: Option<Native>): (r: State)
    ensures r == s.(work := r.work, observed := r.observed, dispatches := r.dispatches)
  {
    var a := Resolve(w, lone, key);
    if a.None? || a.value !in w.snapshot || status.None? then s else Observe(s, call, w, a.value, status.value)
  }

  function ObserveAll(s: State, call: CallId, w: Wait, lone: bool, statuses: seq<(string, Option<Native>)>): (r: State)
    ensures r == s.(work := r.work, observed := r.observed, dispatches := r.dispatches)
    decreases |statuses|
  {
    if statuses == [] then s
    else ObserveAll(ObserveOne(s, call, w, lone, statuses[0].0, statuses[0].1), call, w, lone, statuses[1..])
  }

  /** The statuses of a result count if the round is still the wait's and the result is no error. */
  function Listen(s: State, call: CallId, w: Wait, r: WaitResult): (z: State)
    ensures z == s.(work := z.work, observed := z.observed, dispatches := z.dispatches)
  {
    if s.contract.Some? && s.contract.value.plan == w.plan && !r.error && r.statuses.Some?
    then ObserveAll(s, call, w, |r.statuses.value| == 1, r.statuses.value)
    else s
  }

  function PostWait(s: State, call: CallId, r: WaitResult): (z: State)
    ensures z == s.(work := z.work, observed := z.observed, dispatches := z.dispatches, waits := z.waits)
    ensures call in s.waits ==>
              call in z.waits && z.waits == s.waits[call := z.waits[call]] && z.waits[call].result.Some? &&
              z.waits[call].(result := None) == s.waits[call].(result := None)
  {
    if call !in s.waits || s.waits[call].result.Some? then s
    else
      var w := s.waits[call];
      var seen := Listen(s, call, w, r);
      seen.(waits := seen.waits[call := w.(result := Some(r))])
  }

  /** An observation is current while no dispatch was added to its ticket. */
  predicate Fresh(s: State, t: Ticket) {
    t in s.observed && s.observed[t].epoch == Epoch(s.dispatches, t) && s.observed[t].plan == t.plan
  }

  /** A blocked report whose dependencies changed; never in review. */
  predicate Stale(s: State, t: Ticket, env: Env)
    requires s.contract.Some? && t in s.work
  {
    t in s.reports && s.reports[t].verdict == BlockedReport && s.contract.value.phase != REVIEW &&
    Fingerprint(Ground(s, t, env), s.reports[t].dependencies) != s.reports[t].sources
  }

  predicate MayPrepareRecovery(s: State, t: Ticket, env: Env)
    requires s.contract.Some? && t in s.work
  {
    var row := s.work[t];
    var stale := Stale(s, t, env);
    && Fresh(s, t) && s.observed[t].state == Completed && row.stage == Returned
    && (stale || !(row.result.Some? && row.result.value.status in {Status.Partial, Status.Blocked}))
    && (stale || !(t in s.reports && s.reports[t].verdict == BlockedReport))
    && (stale || !(t in s.reports && row.result.Some? && row.result.value.status in {Status.Analysis, Status.Tested}))
    && Recoveries(s, t) < MAX_RECOVERIES
  }

  function PrepareRecovery(s: State, slot: nat, env: Env): (z: State)
    ensures z == s.(requests := z.requests)
  {
    if !Ready(s, env) || !HasRow(s, slot) || !MayPrepareRecovery(s, Now(s, slot), env) then s
    else
      var t := Now(s, slot);
      var stale := Stale(s, t, env);
      var count := Recoveries(s, t) + 1;
      var agent := s.work[t].agent;
      var text := if stale then ReassessText else RecoverText(count);
      var payload := Payload(if agent.Some? then Send else Spawn, agent, t, text);
      s.(requests := s.requests[t := Request(count, payload, t.plan, s.observed[t].call, s.observed[t].epoch, stale,
           if stale then Fingerprint(Ground(s, t, env), s.reports[t].dependencies) else map[])])
  }

  // ---------- workers ----------

  /** genuine: the worker's role, model and parent session are those the root recorded. */
  predicate MayJoin(s: State, a: Agent, t: Ticket, genuine: bool, env: Env) {
    && genuine && s.contract.Some? && t.plan == s.contract.value.plan && t in s.work && t.slot < |s.members|
    && s.members[t.slot].agent == Some(a)
    && (exists i :: 0 <= i < |s.dispatches| && s.dispatches[i].payload.ticket == t && s.dispatches[i].state == InFlight)
    && (env.quiet || (a in s.metas && s.metas[a] == Meta(t, s.contract.value.round)))
    && Active(s.work[t].stage)
    && (s.work[t].agent.Some? ==> s.work[t].agent == Some(a))
    && (s.work[t].task.kind == Implement ==> s.work[t].workspace)
  }

  function Join(s: State, a: Agent, t: Ticket, genuine: bool, env: Env): (z: State)
    ensures z == s.(work := z.work, metas := z.metas, members := z.members)
  {
    if !MayJoin(s, a, t, genuine, env) then s
    else
      s.(work := s.work[t := s.work[t].(stage := Running, agent := Some(a))],
         metas := s.metas[a := Meta(t, s.contract.value.round)],
         members := s.members[t.slot := s.members[t.slot].(worker := true)])
  }

  /** What a worker submits. formed: fields and lengths are as required; wordy: too long to be decided on unread. */
  datatype Draft = Draft(formed: bool, verdict: Verdict, covers: set<nat>,
                         references: set<Path>, cited: set<nat>, absent: set<Path>, wordy: bool)

  /** Slots s5 and s6 review independently. */
  predicate Independent(slot: nat) {
    slot == 4 || slot == 5
  }

  /** A report refers to existing files of its scope, to requirements and, if it is blocked, to missing paths. */
  predicate ReferencesOk(d: Draft, scopes: set<Path>, ground: Files, requirements: nat) {
    && 1 <= |d.references| + |d.cited| + |d.absent| <= 100
    && (forall p | p in d.references :: p in ground && Within(scopes, p))
    && (forall r | r in d.cited :: r < requirements)
    && (d.absent != {} ==> d.verdict == BlockedReport)
    && (forall p | p in d.absent :: !Present(ground, p) && Within(scopes, p))
  }

  function Scopes(row: Row): set<Path> {
    set p | p in row.task.paths
  }

  predicate MayReport(s: State, a: Agent, d: Draft, env: Env) {
    && Ready(s, env) && a in s.metas && d.formed
    && var t := s.metas[a].ticket;
    && var c := s.contract.value;
    && t.plan == c.plan && t in s.work && s.work[t].stage == Running && s.work[t].agent == Some(a)
    && d.covers != {} && (forall r | r in d.covers :: r < |c.requirements|)
    && ReferencesOk(d, Scopes(s.work[t]), Ground(s, t, env), |c.requirements|)
    && (c.phase == REVIEW ==>
          && Fingerprint(env.files, c.reviewPaths) == c.snapshot
          && d.references != {}
          && (Independent(t.slot) ==> forall r | 0 <= r < |c.requirements| :: r in d.covers))
  }

  /** The report a draft becomes: a blocked one is judged by its whole scope, another by the files it cites. */
  function Written(d: Draft, a: Agent, round: nat, scopes: set<Path>, ground: Files): Report {
    var dependencies := if d.verdict == BlockedReport then scopes else d.references;
    Report(a, round, d.verdict, d.covers, map p | p in d.references && p in ground :: ground[p], d.cited, d.absent,
           d.wordy || |d.references| + |d.cited| + |d.absent| > 4, dependencies, Fingerprint(ground, dependencies))
  }

  function Submit(s: State, a: Agent, d: Draft, env: Env): (z: State)
    ensures z == s.(reports := z.reports, log := z.log)
  {
    if !MayReport(s, a, d, env) then s
    else
      var t := s.metas[a].ticket;
      var report := Written(d, a, s.contract.value.round, Scopes(s.work[t]), Ground(s, t, env));
      s.(reports := s.reports[t := report],
         log := s.log + [Reported(t, report, Fingerprint(env.files, s.contract.value.reviewPaths))])
  }

  /** Team.returned for the ticket the worker joined last. */
  function HandBack(s: State, a: Agent, status: Status): (z: State)
    ensures z == s.(work := z.work, dispatches := z.dispatches)
  {
    if a !in s.metas then s
    else
      var t := s.metas[a].ticket;
      if t !in s.work || !Occupies(s.work[t].stage) then s
      else s.(work := s.work[t := s.work[t].(stage := Returned, result := Some(Handback(status, Some(a), false)))],
              dispatches := SetCalls(s.dispatches, t, CallReturned))
  }

  /** Crew.can_write */
  predicate MayWrite(s: State, env: Env) {
    Ready(s, env) && s.contract.value.phase == EXECUTE && forall k | 0 <= k < |s.members| :: s.members[k].agent.Some?
  }

  predicate DetailsRead(s: State, t: Ticket) {
    t in s.reports ==>
      (s.reports[t].verdict == Clear && !s.reports[t].lengthy) || (t in s.delivered && s.delivered[t] == s.reports[t])
  }

  predicate MayIntegrate(s: State, slot: nat, env: Env) {
    && MayWrite(s, env) && HasRow(s, slot) && DetailsRead(s, Now(s, slot))
    && var row := s.work[Now(s, slot)];
       row.stage == Returned && row.task.kind == Implement &&
       row.result.Some? && row.result.value.status == Status.Tested &&
       row.result.value.worker.Some? && row.result.value.worker.value in s.metas &&
       s.metas[row.result.value.worker.value].ticket == Now(s, slot)
  }

  /** team-integrate: the checked patch of a returned writer enters the root's checkout. */
  function Integrate(s: State, slot: nat, env: Env): (z: State)
    ensures z == s.(work := z.work, dispatches := z.dispatches)
  {
    if !MayIntegrate(s, slot, env) then s
    else
      var t := Now(s, slot);
      var row := s.work[t];
      s.(work := s.work[t := row.(result := Some(row.result.value.(integrated := true)))],
         dispatches := SetCalls(s.dispatches, t, CallReturned))
  }

  /** Team.accept: a checked handback; a writer's also integrated. */
  predicate Acceptable(row: Row) {
    row.stage == Returned && row.result.Some? && row.result.value.status in {Status.Analysis, Status.Tested} &&
    (row.task.kind == Implement ==> row.result.value.status == Status.Tested && row.result.value.integrated)
  }

  /** team-accept */
  function AcceptTask(s: State, slot: nat, env: Env): (z: State)
    ensures z == s.(work := z.work)
  {
    if !MayWrite(s, env) || !HasRow(s, slot) || !DetailsRead(s, Now(s, slot)) then s
    else
      var t := Now(s, slot);
      var row := s.work[t];
      if !Acceptable(row) then s else s.(work := s.work[t := row.(stage := Accepted)])
  }

  function ReportsOf(s: State, slots: set<nat>): map<Ticket, Report>
    requires s.contract.Some?
  {
    map t | t in s.reports && t.plan == s.contract.value.plan && t.slot in slots :: s.reports[t]
  }

  /** Crew.deliver_reports */
  function ReadReports(s: State, slots: set<nat>): (z: State)
    ensures z == s.(delivered := z.delivered)
  {
    if s.contract.None? then s else s.(delivered := s.delivered + ReportsOf(s, slots))
  }

  // ---------- phase transitions ----------

  predicate AllBound(s: State) {
    && |s.members| == SLOTS
    && (forall k | 0 <= k < SLOTS :: s.members[k].agent.Some?)
    && (forall k, l | 0 <= k < l < SLOTS :: s.members[k].agent != s.members[l].agent)
  }

  predicate StillThere(references: Files, fs: Files) {
    forall p | p in references :: p in fs && fs[p] == references[p]
  }

  /** The requirements of Crew._returned on one slot, outside a repair. */
  predicate SlotReturned(s: State, slot: nat, clear: bool, env: Env)
    requires s.contract.Some? && HasRow(s, slot)
  {
    var t := Now(s, slot);
    var row := s.work[t];
    var c := s.contract.value;
    && (row.stage == Returned || row.stage == Accepted)
    && row.result.Some? && row.result.value.status in {Status.Analysis, Status.Tested}
    && t in s.reports && s.reports[t].round == c.round
    && s.members[slot].worker && row.result.value.worker == s.members[slot].agent
    && Some(s.reports[t].agent) == s.members[slot].agent && row.agent == s.members[slot].agent
    && s.reports[t].agent in s.metas && s.metas[s.reports[t].agent] == Meta(t, c.round)
    && (c.phase == PLAN ==> StillThere(s.reports[t].references, Ground(s, t, env)))
    && s.reports[t].verdict != BlockedReport && (clear ==> s.reports[t].verdict == Clear)
    && (row.task.kind == Implement ==> row.result.value.status == Status.Tested && row.result.value.integrated)
  }

  /** A repair asks only that no row is still under way. */
  predicate RowSettled(s: State, slot: nat, clear: bool, repairing: bool, env: Env)
    requires s.contract.Some? && HasRow(s, slot)
  {
    if repairing then s.work[Now(s, slot)].stage in {Returned, Accepted, Failed} else SlotReturned(s, slot, clear, env)
  }

  predicate AllReturned(s: State, clear: bool, repairing: bool, env: Env)
    requires s.contract.Some?
  {
    && Idle(s, env) && AllBound(s)
    && (forall i | 0 <= i < SLOTS :: HasRow(s, i) && DetailsRead(s, Now(s, i)))
    && (forall i | 0 <= i < SLOTS :: RowSettled(s, i, clear, repairing, env))
  }

  /** Crew._accept_round for one row. */
  function Settle(s: State, t: Ticket, repairing: bool): Row
    requires t in s.work
  {
    var row := s.work[t];
    var unfit := row.result.None? || row.result.value.status !in {Status.Analysis, Status.Tested} ||
                 !(t in s.reports && s.reports[t].verdict == Clear) ||
                 (row.task.kind == Implement && !row.result.value.integrated);
    row.(stage := if repairing && unfit then Abandoned else Accepted)
  }

  function AcceptRound(s: State, repairing: bool): State
    requires s.contract.Some?
  {
    s.(work := map t | t in s.work ::
         if t.plan == s.contract.value.plan && t.slot < SLOTS then Settle(s, t, repairing) else s.work[t])
  }

  /** Six tasks, listed by slot, writers only in the first four slots and only in the agreed outputs. */
  ghost predicate TasksOk(s: State, tasks: seq<Task>)
    requires s.contract.Some?
  {
    Admissible(tasks) && Assigned(s.contract.value, tasks)
  }

  predicate Assigned(c: Contract, tasks: seq<Task>) {
    && |tasks| == SLOTS
    && (forall i | 0 <= i < SLOTS :: tasks[i].id == SlotName(i) && tasks[i].brief.Given?)
    && (forall i | 0 <= i < SLOTS && Independent(i) :: tasks[i].kind != Implement)
    && (forall i | 0 <= i < SLOTS && tasks[i].kind == Implement ::
          AllWithin(set p | p in c.outputPaths, set p | p in tasks[i].paths))
  }

  /** The contract of an execution round. */
  function Executing(c: Contract, decision: string): Contract {
    c.(phase := EXECUTE, round := c.round + 1, decision := Some(decision))
  }

  ghost predicate MayExecute(s: State, repair: bool, decision: string, tasks: seq<Task>, env: Env) {
    && Ready(s, env) && Decision(decision)
    && (if repair then s.contract.value.phase in {EXECUTE, REVIEW} else s.contract.value.phase == PLAN)
    && TasksOk(s, tasks) && AllReturned(s, false, repair, env) && Fits(Executing(s.contract.value, decision), tasks)
  }

  /** crew-execute, crew-repair */
  ghost function Execute(s: State, repair: bool, decision: string, tasks: seq<Task>, env: Env): (z: State)
    ensures z == s.(contract := z.contract, plans := z.plans, work := z.work)
  {
    if !MayExecute(s, repair, decision, tasks, env) then s
    else NewRound(AcceptRound(s, repair), Executing(s.contract.value, decision), tasks)
  }

  predicate ReviewStands(s: State, env: Env)
    requires s.contract.Some?
  {
    s.contract.value.phase == REVIEW && env.evidence.ledger.task == s.contract.value.reviewTask &&
    Fingerprint(env.files, s.contract.value.reviewPaths) == s.contract.value.snapshot
  }

  /** Everything a review freezes: evidence, outputs and what the root's checks depend on. */
  function ReviewPaths(c: Contract, task: Ledger.Task): set<Path> {
    (set p | p in c.evidencePaths) + (set p | p in c.outputPaths) + Dependencies(task)
  }

  /** What the six are to inspect, frozen as it is now. */
  function Frozen(c: Contract, decision: string, env: Env): Contract
    requires env.evidence.ledger.task.Some?
  {
    var paths := ReviewPaths(c, env.evidence.ledger.task.value);
    c.(phase := REVIEW, round := c.round + 1, decision := Some(decision),
       reviewPaths := paths, snapshot := Fingerprint(env.files, paths), reviewTask := env.evidence.ledger.task)
  }

  function OpenReview(s: State, decision: string, order: seq<Path>, env: Env): State
    requires s.contract.Some? && env.evidence.ledger.task.Some?
  {
    var terms := Frozen(s.contract.value, decision, env);
    var reviewed := Reviewed(s.plans, terms.reviewPaths, terms.snapshot, env.evidence.ledger, Checks(env));
    NewRound(AcceptRound(s, false), terms, LensTasks(ReviewLenses, order)).(log := s.log + [reviewed])
  }

  /** The sorted list of what is reviewed is a plan's list of paths; order is that list. */
  ghost predicate Reviewable(c: Contract, order: seq<Path>, task: Ledger.Task) {
    (forall p :: p in order <==> p in ReviewPaths(c, task)) && Admissible(LensTasks(ReviewLenses, order))
  }

  ghost predicate MayReview(s: State, decision: string, order: seq<Path>, env: Env) {
    && Ready(s, env) && Decision(decision) && s.contract.value.phase in {EXECUTE, REVIEW}
    && RootEvidence(s.contract.value, env, false) && !ReviewStands(s, env) && AllReturned(s, false, false, env)
    && Reviewable(s.contract.value, order, env.evidence.ledger.task.value)
    && Fits(Frozen(s.contract.value, decision, env), LensTasks(ReviewLenses, order))
  }

  /** crew-review */
  ghost function Review(s: State, decision: string, order: seq<Path>, env: Env): (z: State)
    ensures z == s.(contract := z.contract, plans := z.plans, work := z.work, log := z.log)
  {
    if !MayReview(s, decision, order, env) then s else OpenReview(s, decision, order, env)
  }

  function BoundAgents(members: seq<Member>): seq<Agent>
    requires forall m | m in members :: m.agent.Some?
  {
    seq(|members|, i requires 0 <= i < |members| => members[i].agent.value)
  }

  predicate MayFinish(s: State, decision: string, env: Env) {
    && Ready(s, env) && Decision(decision) && s.contract.value.phase == REVIEW && AllReturned(s, true, false, env)
    && RootEvidence(s.contract.value, env, true) && env.evidence.ledger.task == s.contract.value.reviewTask
    && Fingerprint(env.files, s.contract.value.reviewPaths) == s.contract.value.snapshot
  }

  function Certificate(s: State, env: Env): Event
    requires s.contract.Some? && forall m | m in s.members :: m.agent.Some?
  {
    var c := s.contract.value;
    Certified(c.plan, c.requirements, Fingerprint(env.files, c.reviewPaths), BoundAgents(s.members),
              env.evidence.ledger, Checks(env))
  }

  /** crew-complete */
  function Finish(s: State, decision: string, env: Env): (z: State)
    ensures z == s.(contract := z.contract, work := z.work, log := z.log)
  {
    if !MayFinish(s, decision, env) then s
    else
      AcceptRound(s, false).(contract := Some(s.contract.value.(phase := COMPLETE, decision := Some(decision))),
                             log := s.log + [Certificate(s, env)])
  }

  // ---------- runs ----------

  /** Native calls, their answers and refusals. */
  datatype HostCommand =
    | PreCall(call: CallId, payload: Payload, env: Env)
    | PostCall(call: CallId, answer: Answer)
    | ForeignBinding(agent: Agent)
    | Reconcile(call: CallId, receipt: Receipt)
    | RetryNative(slot: nat, env: Env)

  /** Waits, their results and the recoveries they allow. */
  datatype WaitCommand =
    | PreWaiting(call: CallId, targets: seq<Agent>, env: Env)
    | PostWaiting(call: CallId, result: WaitResult)
    | Recover(slot: nat, env: Env)

  datatype WorkerCommand =
    | JoinCrew(agent: Agent, ticket: Ticket, genuine: bool, env: Env)
    | SubmitReport(agent: Agent, draft: Draft, env: Env)
    | Return(agent: Agent, status: Status)

  /** What the root does with single rows and reports. */
  datatype RootCommand =
    | IntegrateTask(slot: nat, env: Env)
    | AcceptOne(slot: nat, env: Env)
    | Deliver(slots: set<nat>)

  datatype RoundCommand =
    | StartCrew(revise: bool, terms: Terms, free: bool, env: Env)
    | NextCrew(failing: set<nat>, env: Env)
    | ExecuteCrew(repair: bool, decision: string, tasks: seq<Task>, env: Env)
    | ReviewCrew(decision: string, order: seq<Path>, env: Env)
    | CompleteCrew(decision: string, env: Env)

  datatype Command =
    | AtHost(h: HostCommand)
    | AtWait(w: WaitCommand)
    | ByWorker(k: WorkerCommand)
    | ByRoot(r: RootCommand)
    | AtRound(n: RoundCommand)

  function ApplyHost(s: State, h: HostCommand): State {
    match h
    case PreCall(call, p, env) => PreDispatch(s, call, p, env)
    case PostCall(call, answer) => PostDispatch(s, call, answer)
    case ForeignBinding(a) => BindElsewhere(s, a)
    case Reconcile(call, receipt) => Reconciled(s, call, receipt)
    case RetryNative(slot, env) => Retry(s, slot, env)
  }

  function ApplyWait(s: State, w: WaitCommand): State {
    match w
    case PreWaiting(call, targets, env) => PreWait(s, call, targets, env)
    case PostWaiting(call, r) => PostWait(s, call, r)
    case Recover(slot, env) => PrepareRecovery(s, slot, env)
  }

  function ApplyWorker(s: State, k: WorkerCommand): State {
    match k
    case JoinCrew(a, t, genuine, env) => Join(s, a, t, genuine, env)
    case SubmitReport(a, d, env) => Submit(s, a, d, env)
    case Return(a, status) => HandBack(s, a, status)
  }

  function ApplyRoot(s: State, r: RootCommand): State {
    match r
    case IntegrateTask(slot, env) => Integrate(s, slot, env)
    case AcceptOne(slot, env) => AcceptTask(s, slot, env)
    case Deliver(slots) => ReadReports(s, slots)
  }

  ghost function ApplyRound(s: State, n: RoundCommand): State {
    match n
    case StartCrew(revise, terms, free, env) => Start(s, revise, terms, free, env)
    case NextCrew(failing, env) => Next(s, failing, env)
    case ExecuteCrew(repair, decision, tasks, env) => Execute(s, repair, decision, tasks, env)
    case ReviewCrew(decision, order, env) => Review(s, decision, order, env)
    case CompleteCrew(decision, env) => Finish(s, decision, env)
  }

  ghost function Apply(s: State, c: Command): State {
    match c
    case AtHost(h) => ApplyHost(s, h)
    case AtWait(w) => ApplyWait(s, w)
    case ByWorker(k) => ApplyWorker(s, k)
    case ByRoot(r) => ApplyRoot(s, r)
    case AtRound(n) => ApplyRound(s, n)
  }

  ghost function Run(s: State, cs: seq<Command>): State
    decreases |cs|
  {
    if cs == [] then s else Run(Apply(s, cs[0]), cs[1..])
  }
}
