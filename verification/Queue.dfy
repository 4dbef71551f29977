/** The research job queue of research.py as a value: its rows, its dependency index and its study record,
    and what every queue command does to them. */
module Queue {
  import opened Wrappers
  import opened Graph
  import Paths
  import Trie

  const MAX_JOBS: nat := 10000
  const MAX_BATCH: nat := 256

  /** An immutable job definition; body stands for the fields no queue decision reads. */
  datatype Job = Job(outputs: seq<Paths.Path>, dependsOn: seq<Name>, body: string)

  datatype JobState = PENDING | RUNNING | VERIFIED | FAILED | ERROR | STALE | CANCELLED

  datatype Row = Row(job: Job, state: JobState, nonce: Option<string>, score: Option<real>)

  datatype Phase = PAUSED | STARTING | ACTIVE | PAUSING | FINISHED

  datatype Best = Best(id: Name, score: real)

  datatype Study = Study(phase: Phase, maximize: bool, revision: nat, nonce: Option<string>, best: Option<Best>)

  /** order is the rows' insertion order, index the research_dependencies table. */
  datatype State = State(rows: map<Name, Row>, order: seq<Name>, index: set<(Name, Name)>, study: Option<Study>)

  predicate Terminal(s: JobState) {
    s in {VERIFIED, FAILED, ERROR, STALE, CANCELLED}
  }

  /** Ended without a verified result. */
  predicate Dead(s: JobState) {
    s in {FAILED, ERROR, STALE, CANCELLED}
  }

  function DepsOf(rows: map<Name, Row>): Deps {
    map n | n in rows :: rows[n].job.dependsOn
  }

  function OutputsOf(rows: map<Name, Row>): map<Name, seq<Paths.Path>> {
    map n | n in rows :: rows[n].job.outputs
  }

  /** What validate_graph accepts. */
  ghost predicate GraphOk(rows: map<Name, Row>) {
    Trie.Disjoint(OutputsOf(rows)) && Closed(DepsOf(rows)) && Acyclic(DepsOf(rows))
  }

  // ---------- reading ----------

  predicate IsReady(q: State, n: Name) {
    n in q.rows && q.rows[n].state == PENDING &&
    forall e | e in q.index && e.0 == n :: e.1 in q.rows && q.rows[e.1].state == VERIFIED
  }

  /** _ready_row: the first ready job in insertion order. */
  function ReadyRow(q: State, from: nat := 0): (r: Option<Name>)
    requires from <= |q.order|
    ensures r.Some? ==> r.value in q.order && IsReady(q, r.value) &&
                        exists i :: from <= i < |q.order| && q.order[i] == r.value &&
                                    forall k | from <= k < i :: !IsReady(q, q.order[k])
    ensures r.None? ==> forall n | n in q.order[from..] :: !IsReady(q, n)
    decreases |q.order| - from
  {
    if from == |q.order| then None
    else if IsReady(q, q.order[from]) then Some(q.order[from])
    else ReadyRow(q, from + 1)
  }

  function Count(q: State, s: JobState): nat {
    |set n | n in q.rows && q.rows[n].state == s|
  }

  // ---------- writing ----------

  datatype Command =
    | Configure(maximize: bool)
    | Enqueue(batch: seq<(Name, Job)>, outputsAbsent: bool)
    | Start(starter: string)
    | LaunchFailed(failed: string)
    | WorkerUp(worker: string)
    | Claim(claimer: string, contractValid: bool)
    | Commit(id: Name, owner: string, result: JobState, score: real)
    | Recover(controllerExited: bool, jobsExited: bool)
    | WorkerDrained(drained: string)
    | Pause
    | Finish
    | Cancel(ids: set<Name>)

  function AddRows(rows: map<Name, Row>, batch: seq<(Name, Job)>): map<Name, Row>
    decreases |batch|
  {
    if batch == [] then rows
    else
      var (n, job) := batch[0];
      AddRows(if n in rows then rows else rows[n := Row(job, PENDING, None, None)], batch[1..])
  }

  function AddOrder(rows: map<Name, Row>, order: seq<Name>, batch: seq<(Name, Job)>): seq<Name>
    decreases |batch|
  {
    if batch == [] then order
    else
      var (n, job) := batch[0];
      AddOrder(rows, if n in rows then order else order + [n], batch[1..])
  }

  function IndexOf(rows: map<Name, Row>): set<(Name, Name)> {
    set n, d | n in rows && d in rows[n].job.dependsOn :: (n, d)
  }

  /** The checks of enqueue that need no graph. */
  predicate BatchOk(q: State, batch: seq<(Name, Job)>) {
    && 1 <= |batch| <= MAX_BATCH
    && (forall i, j | 0 <= i < j < |batch| :: batch[i].0 != batch[j].0)
    && q.study.Some? && q.study.value.phase != FINISHED
    && (forall i | 0 <= i < |batch| && batch[i].0 in q.rows :: q.rows[batch[i].0].job == batch[i].1)
    && |AddRows(q.rows, batch)| <= MAX_JOBS
  }

  function NewJobs(q: State, batch: seq<(Name, Job)>): nat {
    |AddOrder(q.rows, [], batch)|
  }

  ghost predicate MayEnqueue(q: State, batch: seq<(Name, Job)>, outputsAbsent: bool) {
    BatchOk(q, batch) && GraphOk(AddRows(q.rows, batch)) && (outputsAbsent || NewJobs(q, batch) == 0)
  }

  function Enqueued(q: State, batch: seq<(Name, Job)>): State
    requires q.study.Some?
  {
    var rows := AddRows(q.rows, batch);
    State(rows, AddOrder(q.rows, q.order, batch), q.index + (IndexOf(rows) - IndexOf(q.rows)),
          Some(q.study.value.(revision := q.study.value.revision + NewJobs(q, batch))))
  }

  /** _claim, after the contract was found valid: start the first ready job. */
  function Claimed(q: State, nonce: string): State {
    match ReadyRow(q)
    case None => q
    case Some(n) => q.(rows := q.rows[n := q.rows[n].(state := RUNNING, nonce := Some(nonce))])
  }

  function Better(maximize: bool, a: real, b: real): bool {
    if maximize then a > b else a < b
  }

  function Rank(study: Study, id: Name, score: real): Option<Best> {
    if study.best.None? || Better(study.maximize, score, study.best.value.score) then Some(Best(id, score))
    else study.best
  }

  /** The final transaction of _execute. */
  function Committed(q: State, id: Name, result: JobState, score: real): State
    requires id in q.rows && q.study.Some?
  {
    var study := q.study.value.(revision := q.study.value.revision + 1);
    var verified := result == VERIFIED;
    q.(rows := q.rows[id := q.rows[id].(state := result, score := if verified then Some(score) else None)],
       study := Some(if verified then study.(best := Rank(study, id, score)) else study))
  }

  function Recovered(q: State): State
    requires q.study.Some?
  {
    q.(rows := map n | n in q.rows :: if q.rows[n].state == RUNNING then q.rows[n].(state := ERROR) else q.rows[n],
       study := Some(q.study.value.(phase := PAUSED, revision := q.study.value.revision + 1 + Count(q, RUNNING))))
  }

  function SetPhase(q: State, phase: Phase): State
    requires q.study.Some?
  {
    q.(study := Some(q.study.value.(phase := phase)))
  }

  function Bump(q: State): State
    requires q.study.Some?
  {
    q.(study := Some(q.study.value.(revision := q.study.value.revision + 1)))
  }

  function Cancelled(q: State, ids: set<Name>): State
    requires q.study.Some?
  {
    Bump(q.(rows := map n | n in q.rows :: if n in ids then q.rows[n].(state := CANCELLED) else q.rows[n]))
  }

  predicate Supervised(q: State, nonce: string) {
    q.study.Some? && q.study.value.nonce == Some(nonce)
  }

  predicate ControllerPhase(p: Phase) {
    p in {ACTIVE, STARTING, PAUSING}
  }

  /** One command; a refused command changes nothing. */
  ghost function Apply(q: State, c: Command): State {
    match c
    case Configure(maximize) => if q.study.Some? then q else q.(study := Some(Study(PAUSED, maximize, 0, None, None)))
    case Enqueue(batch, absent) => if MayEnqueue(q, batch, absent) then Enqueued(q, batch) else q
    case Start(nonce) =>
      if q.study.Some? && q.study.value.phase == PAUSED
      then q.(study := Some(q.study.value.(phase := STARTING, nonce := Some(nonce)))) else q
    case LaunchFailed(nonce) => if Supervised(q, nonce) then SetPhase(q, PAUSED) else q
    case WorkerUp(nonce) => if Supervised(q, nonce) && q.study.value.phase == STARTING then SetPhase(q, ACTIVE) else q
    case Claim(nonce, valid) =>
      if !Supervised(q, nonce) || q.study.value.phase != ACTIVE then q
      else if !valid then SetPhase(q, PAUSING)
      else Claimed(q, nonce)
    case Commit(id, nonce, result, score) =>
      if id in q.rows && q.rows[id].state == RUNNING && q.rows[id].nonce == Some(nonce) && q.study.Some? &&
         result in {VERIFIED, FAILED, ERROR, STALE}
      then Committed(q, id, result, score) else q
    case Recover(controllerExited, jobsExited) =>
      if q.study.Some? && ControllerPhase(q.study.value.phase) && controllerExited && jobsExited
      then Recovered(q) else q
    case WorkerDrained(nonce) =>
      if Supervised(q, nonce) && q.study.value.phase == PAUSING && Count(q, RUNNING) == 0
      then SetPhase(q, PAUSED) else q
    case Pause =>
      if q.study.None? || q.study.value.phase == FINISHED then q
      else Bump(if q.study.value.phase in {ACTIVE, STARTING} then SetPhase(q, PAUSING) else q)
    case Finish =>
      if q.study.Some? && q.study.value.phase == PAUSED && Count(q, RUNNING) == 0 && Count(q, PENDING) == 0
      then Bump(SetPhase(q, FINISHED)) else q
    case Cancel(ids) =>
      if q.study.Some? && ids != {} && (forall n | n in ids :: n in q.rows && q.rows[n].state in {PENDING, CANCELLED})
      then Cancelled(q, ids) else q
  }

  ghost function Run(q: State, cs: seq<Command>): State
    decreases |cs|
  {
    if cs == [] then q else Run(Apply(q, cs[0]), cs[1..])
  }

  const EMPTY: State := State(map[], [], {}, None)
}
