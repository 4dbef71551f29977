/** The Research object: the tables it keeps and the methods that change them. */
module ResearchQueue {
  import opened Wrappers
  import opened Graph
  import opened Queue
  import opened QueueTruth
  import Kahn
  import Trie

  /** research.validate_graph. */
  method ValidateGraph(order: seq<Name>, rows: map<Name, Row>) returns (ok: bool)
    requires Kahn.Lists(order, rows)
    ensures ok <==> GraphOk(rows)
  {
    var clear := Trie.Check(order, OutputsOf(rows));
    if !clear {
      return false;
    }
    var r := Kahn.Check(order, DepsOf(rows));
    ok := r == Kahn.Accepted;
  }

  /** The new definitions of a batch behind the known ones. */
  method Merge(rows: map<Name, Row>, order: seq<Name>, batch: seq<(Name, Job)>)
    returns (allRows: map<Name, Row>, allOrder: seq<Name>, inserted: nat)
    requires forall i, j | 0 <= i < j < |batch| :: batch[i].0 != batch[j].0
    ensures allRows == AddRows(rows, batch) && allOrder == AddOrder(rows, order, batch) &&
            inserted == |AddOrder(rows, [], batch)|
  {
    allRows, allOrder, inserted := rows, order, 0;
    for i := 0 to |batch|
      invariant AddRows(rows, batch) == AddRows(allRows, batch[i..])
      invariant AddOrder(rows, order, batch) == AddOrder(rows, allOrder, batch[i..])
      invariant |AddOrder(rows, [], batch)| == inserted + |AddOrder(rows, [], batch[i..])|
      invariant forall k | i <= k < |batch| :: batch[k].0 in allRows ==> batch[k].0 in rows
      invariant forall n | n in rows :: n in allRows
    {
      var (n, job) := batch[i];
      assert batch[i..][1..] == batch[i + 1..] && batch[i..][0] == batch[i];
      AddOrderFrom(rows, [n], batch[i + 1..]);
      assert [] + [n] == [n];
      if n !in rows {
        allRows, allOrder, inserted := allRows[n := Row(job, PENDING, None, None)], allOrder + [n], inserted + 1;
      }
    }
  }

  /** One UPDATE per row. */
  method SetStates(rows0: map<Name, Row>, ids: set<Name>, state: JobState) returns (rows: map<Name, Row>)
    requires ids <= rows0.Keys
    ensures rows == map n | n in rows0 :: if n in ids then rows0[n].(state := state) else rows0[n]
  {
    rows := rows0;
    var todo := ids;
    while todo != {}
      invariant todo <= ids
      invariant rows == map n | n in rows0 :: if n in ids - todo then rows0[n].(state := state) else rows0[n]
      decreases todo
    {
      var n :| n in todo;
      todo := todo - {n};
      rows := rows[n := rows[n].(state := state)];
    }
  }

  class Research {
    var rows: map<Name, Row>
    var order: seq<Name>
    var index: set<(Name, Name)>
    var study: Option<Study>
    ghost var history: seq<Command>

    function Abs(): State
      reads this
    {
      State(rows, order, index, study)
    }

    /** The tables are what the commands issued so far make of an empty store, so ReachableQueue speaks about them. */
    ghost predicate Valid()
      reads this
    {
      Abs() == Run(EMPTY, history)
    }

    constructor ()
      ensures Valid() && Abs() == EMPTY
    {
      rows, order, index, study, history := map[], [], {}, None, [];
    }

    method Enqueue(batch: seq<(Name, Job)>, outputsAbsent: bool) returns (accepted: bool)
      requires Valid()
      modifies this
      ensures Valid() && Abs() == Apply(old(Abs()), Command.Enqueue(batch, outputsAbsent))
      ensures accepted <==> MayEnqueue(old(Abs()), batch, outputsAbsent)
    {
      Record(Command.Enqueue(batch, outputsAbsent));
      if !BatchOk(Abs(), batch) {
        return false;
      }
      NewOrderLists(old(history), batch);
      var allRows, allOrder, inserted := Merge(rows, order, batch);
      var ok := ValidateGraph(allOrder, allRows);
      if !ok || !(outputsAbsent || inserted == 0) {
        return false;
      }
      index := index + (IndexOf(allRows) - IndexOf(rows));
      rows, order := allRows, allOrder;
      study := Some(study.value.(revision := study.value.revision + inserted));
      accepted := true;
    }

    /** _claim: the job handed to the supervisor, if any. */
    method Claim(nonce: string, contractValid: bool) returns (job: Option<Name>)
      requires Valid()
      modifies this
      ensures Valid() && Abs() == Apply(old(Abs()), Command.Claim(nonce, contractValid))
      ensures job.Some? ==>
                old(job.value in rows && rows[job.value].state == PENDING) && rows ==
                old(rows)[job.value := old(rows)[job.value].(state := RUNNING, nonce := Some(nonce))]
      ensures job.None? ==> rows == old(rows)
      ensures job.Some? ==> job.value in rows && rows[job.value].state == RUNNING &&
                            rows[job.value].nonce == Some(nonce)
    {
      Record(Command.Claim(nonce, contractValid));
      if !Supervised(Abs(), nonce) || study.value.phase != ACTIVE {
        return None;
      }
      if !contractValid {
        study := Some(study.value.(phase := PAUSING));
        return None;
      }
      job := ReadyRow(Abs());
      if job.Some? {
        var n := job.value;
        IndexIsExact(old(history), n);
        var actual := set e | e in index && e.0 == n :: e.1;
        assert actual == set d | d in rows[n].job.dependsOn;  // so the corrupt-index refusal is never taken
        rows := rows[n := rows[n].(state := RUNNING, nonce := Some(nonce))];
      }
    }

    /** The transaction that ends _execute. */
    method Commit(id: Name, nonce: string, result: JobState, score: real) returns (ok: bool)
      requires Valid() && result in {VERIFIED, FAILED, ERROR, STALE}
      modifies this
      ensures Valid() && Abs() == Apply(old(Abs()), Command.Commit(id, nonce, result, score))
      ensures ok <==> old(study.Some? && id in rows && rows[id].state == RUNNING && rows[id].nonce == Some(nonce))
      ensures ok ==> rows == old(rows)[id := old(rows)[id].(state := result, score := if result == VERIFIED
                                                                                      then Some(score) else None)]
      ensures !ok ==> Abs() == old(Abs())
    {
      Record(Command.Commit(id, nonce, result, score));
      if study.None? || id !in rows || rows[id].state != RUNNING || rows[id].nonce != Some(nonce) {
        return false;
      }
      rows := rows[id := rows[id].(state := result, score := if result == VERIFIED then Some(score) else None)];
      study := Some(study.value.(revision := study.value.revision + 1));
      if result == VERIFIED {
        var best := study.value.best;
        var better := best.None? ||
                      (if study.value.maximize then score > best.value.score else score < best.value.score);
        if better {
          study := Some(study.value.(best := Some(Best(id, score))));
        }
      }
      ok := true;
    }

    /** recover, given what the process probes observed. */
    method Recover(controllerExited: bool, jobsExited: bool) returns (recovered: bool)
      requires Valid()
      modifies this
      ensures Valid() && Abs() == Apply(old(Abs()), Command.Recover(controllerExited, jobsExited))
      ensures recovered ==> rows.Keys == old(rows).Keys
      ensures recovered ==> forall n | n in rows :: rows[n] == if old(rows)[n].state == RUNNING
                                                               then old(rows)[n].(state := ERROR) else old(rows)[n]
      ensures !recovered ==> Abs() == old(Abs())
    {
      Record(Command.Recover(controllerExited, jobsExited));
      if study.None? || !ControllerPhase(study.value.phase) || !controllerExited || !jobsExited {
        return false;
      }
      var interrupted := set n | n in rows && rows[n].state == RUNNING;
      rows := SetStates(rows, interrupted, ERROR);
      study := Some(study.value.(phase := PAUSED, revision := study.value.revision + 1 + |interrupted|));
      recovered := true;
    }

    method Cancel(ids: set<Name>) returns (ok: bool)
      requires Valid()
      modifies this
      ensures Valid() && Abs() == Apply(old(Abs()), Command.Cancel(ids))
      ensures ok <==> old(study).Some? && ids != {} &&
                      forall n | n in ids :: n in old(rows) && old(rows)[n].state in {PENDING, CANCELLED}
      ensures ok ==> rows.Keys == old(rows).Keys
      ensures ok ==> forall n | n in rows :: rows[n] == if n in ids then old(rows)[n].(state := CANCELLED)
                                                        else old(rows)[n]
      ensures !ok ==> Abs() == old(Abs())
    {
      Record(Command.Cancel(ids));
      if study.None? || ids == {} || exists n :: n in ids && !(n in rows && rows[n].state in {PENDING, CANCELLED}) {
        return false;
      }
      rows := SetStates(rows, ids, CANCELLED);
      study := Some(study.value.(revision := study.value.revision + 1));
      ok := true;
    }

    /** configure, start, its failed launch, the worker's own transitions, pause and finish move the study record
        only. */
    method Steer(c: Command)
      requires Valid() && StudyOnly(c)
      modifies this
      ensures Valid() && Abs() == Apply(old(Abs()), c) && rows == old(rows)
    {
      Record(c);
      match c {
        case Configure(maximize) => if study.None? { study := Some(Study(PAUSED, maximize, 0, None, None)); }
        case Start(nonce) =>
          if study.Some? && study.value.phase == PAUSED {
            study := Some(study.value.(phase := STARTING, nonce := Some(nonce)));
          }
        case LaunchFailed(nonce) => if Supervised(Abs(), nonce) { study := Some(study.value.(phase := PAUSED)); }
        case WorkerUp(nonce) =>
          if Supervised(Abs(), nonce) && study.value.phase == STARTING { study := Some(study.value.(phase := ACTIVE)); }
        case WorkerDrained(nonce) =>
          if Supervised(Abs(), nonce) && study.value.phase == PAUSING && Count(Abs(), RUNNING) == 0 {
            study := Some(study.value.(phase := PAUSED));
          }
        case Pause =>
          if study.Some? && study.value.phase != FINISHED {
            if study.value.phase in {ACTIVE, STARTING} { study := Some(study.value.(phase := PAUSING)); }
            study := Some(study.value.(revision := study.value.revision + 1));
          }
        case Finish =>
          if study.Some? && study.value.phase == PAUSED && Count(Abs(), RUNNING) == 0 && Count(Abs(), PENDING) == 0 {
            study := Some(study.value.(phase := FINISHED, revision := study.value.revision + 1));
          }
      }
    }

    ghost method Record(c: Command)
      modifies this`history
      ensures history == old(history) + [c]
      ensures old(Valid()) ==> Run(EMPTY, history) == Apply(Abs(), c)
    {
      RunAppend(EMPTY, history, c);
      history := history + [c];
    }
  }

  lemma {:induction false} RunAppend(q: State, cs: seq<Command>, c: Command)
    ensures Run(q, cs + [c]) == Apply(Run(q, cs), c)
    decreases |cs|
  {
    if cs == [] {
      assert Run(q, [c]) == Run(Apply(q, c), []);
    } else {
      assert (cs + [c])[1..] == cs[1..] + [c];
      RunAppend(Apply(q, cs[0]), cs[1..], c);
    }
  }

  lemma IndexIsExact(history: seq<Command>, n: Name)
    requires n in Run(EMPTY, history).rows
    ensures var q := Run(EMPTY, history);
            (set e | e in q.index && e.0 == n :: e.1) == set d | d in q.rows[n].job.dependsOn
  {
    ReachableQueue(history);
    var q := Run(EMPTY, history);
    forall d | d in q.rows[n].job.dependsOn ensures d in (set e | e in q.index && e.0 == n :: e.1) {
      assert (n, d) in q.index;
    }
  }

  lemma NewOrderLists(history: seq<Command>, batch: seq<(Name, Job)>)
    requires forall i, j | 0 <= i < j < |batch| :: batch[i].0 != batch[j].0
    ensures var q := Run(EMPTY, history);
            Kahn.Lists(AddOrder(q.rows, q.order, batch), AddRows(q.rows, batch))
  {
    var q := Run(EMPTY, history);
    EmptyInv();
    RunKeepsInv(EMPTY, history);
    AddOrderLists(q.rows, q.order, batch);
    AddRowsAdds(q.rows, batch);
    var rows := AddRows(q.rows, batch);
    forall n | n in rows && n !in q.rows ensures exists i :: 0 <= i < |batch| && batch[i].0 == n {
      var i :| 0 <= i < |batch| && batch[i] == (n, rows[n].job);
      assert batch[i].0 == n;
    }
  }
}
