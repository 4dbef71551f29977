/** What every reachable research queue satisfies, and what its signals may therefore promise. */
module QueueTruth {
  import opened Wrappers
  import opened Graph
  import opened Queue
  import Kahn

  predicate Started(s: JobState) {
    s != PENDING && s != CANCELLED
  }

  /** No verified score is better than the recorded best one, and the recorded one belongs to a verified job. */
  ghost predicate BestIsExtremum(q: State) {
    q.study.Some? ==>
      match q.study.value.best
      case None => forall n | n in q.rows :: q.rows[n].state != VERIFIED
      case Some(b) =>
        && b.id in q.rows && q.rows[b.id].state == VERIFIED && q.rows[b.id].score == Some(b.score)
        && forall n | n in q.rows && q.rows[n].state == VERIFIED ::
             q.rows[n].score.Some? && !Better(q.study.value.maximize, q.rows[n].score.value, b.score)
  }

  ghost predicate DependenciesVerified(q: State) {
    forall n, d | n in q.rows && Started(q.rows[n].state) && d in q.rows[n].job.dependsOn ::
      d in q.rows && q.rows[d].state == VERIFIED
  }

  ghost predicate Inv(q: State) {
    && Kahn.Lists(q.order, q.rows)
    && GraphOk(q.rows)
    && q.index == IndexOf(q.rows)
    && DependenciesVerified(q)
    && (forall n | n in q.rows && q.rows[n].state == VERIFIED :: q.rows[n].score.Some?)
    && BestIsExtremum(q)
    && (q.study.None? ==> q.rows == map[])
  }

  lemma EmptyInv()
    ensures Inv(EMPTY)
  {
    assert DepsOf(map[]) == map[];
  }

  /** Rows keep their definitions; states change only along the job automaton. */
  ghost predicate Evolves(q: State, r: State) {
    forall n | n in q.rows ::
      n in r.rows && r.rows[n].job == q.rows[n].job &&
      (Terminal(q.rows[n].state) ==> r.rows[n].state == q.rows[n].state && r.rows[n].score == q.rows[n].score) &&
      (q.rows[n].state == RUNNING ==> r.rows[n].state != PENDING && r.rows[n].state != CANCELLED) &&
      (q.rows[n].state == PENDING ==> r.rows[n].state in {PENDING, RUNNING, CANCELLED})
  }

  lemma {:induction false} AddRowsAdds(rows: map<Name, Row>, batch: seq<(Name, Job)>)
    ensures var all := AddRows(rows, batch);
            && (forall n | n in rows :: n in all && all[n] == rows[n])
            && (forall n | n in all && n !in rows ::
                  all[n].state == PENDING && exists i :: 0 <= i < |batch| && batch[i] == (n, all[n].job))
            && (forall i | 0 <= i < |batch| :: batch[i].0 in all)
    decreases |batch|
  {
    if batch != [] {
      var (m, job) := batch[0];
      var next := if m in rows then rows else rows[m := Row(job, PENDING, None, None)];
      AddRowsAdds(next, batch[1..]);
      var all := AddRows(rows, batch);
      forall n | n in all && n !in rows ensures exists i :: 0 <= i < |batch| && batch[i] == (n, all[n].job) {
        if n in next {
          assert batch[0] == (n, all[n].job);
        } else {
          var i :| 0 <= i < |batch[1..]| && batch[1..][i] == (n, all[n].job);
          assert batch[i + 1] == (n, all[n].job);
        }
      }
    }
  }

  lemma {:induction false} AddOrderLists(rows: map<Name, Row>, order: seq<Name>, batch: seq<(Name, Job)>)
    requires Distinct(order) && (forall i, j | 0 <= i < j < |batch| :: batch[i].0 != batch[j].0)
    requires forall i | 0 <= i < |batch| && batch[i].0 !in rows :: batch[i].0 !in order
    ensures var out := AddOrder(rows, order, batch);
            Distinct(out) &&
            forall n :: n in out <==> n in order || (n !in rows && exists i :: 0 <= i < |batch| && batch[i].0 == n)
    decreases |batch|
  {
    if batch != [] {
      var m := batch[0].0;
      var next := if m in rows then order else order + [m];
      assert forall i | 0 <= i < |batch[1..]| :: batch[1..][i] == batch[i + 1];
      AddOrderLists(rows, next, batch[1..]);
      var out := AddOrder(rows, order, batch);
      forall n ensures n in out <==> n in order || (n !in rows && exists i :: 0 <= i < |batch| && batch[i].0 == n) {
        if i :| 0 <= i < |batch[1..]| && batch[1..][i].0 == n {
          assert batch[i + 1].0 == n;
        }
        if n !in rows && exists i :: 0 <= i < |batch| && batch[i].0 == n {
          var i :| 0 <= i < |batch| && batch[i].0 == n;
          assert i == 0 || batch[1..][i - 1].0 == n;
        }
      }
    }
  }

  lemma EnqueueKeepsInv(q: State, batch: seq<(Name, Job)>, absent: bool)
    requires Inv(q) && MayEnqueue(q, batch, absent)
    ensures Inv(Enqueued(q, batch))
  {
    EnqueuedIsListed(q, batch, absent);
    EnqueuedIsIndexed(q, batch);
    EnqueuedStarted(q, batch);
  }

  /** The index has the rows of all definitions, old and new. */
  lemma EnqueuedIsIndexed(q: State, batch: seq<(Name, Job)>)
    requires Inv(q) && q.study.Some?
    ensures Enqueued(q, batch).index == IndexOf(Enqueued(q, batch).rows)
  {
    AddRowsAdds(q.rows, batch);
    assert IndexOf(q.rows) <= IndexOf(Enqueued(q, batch).rows);
  }

  /** What is new is pending, so it disturbs neither verified dependencies nor the best. */
  lemma EnqueuedStarted(q: State, batch: seq<(Name, Job)>)
    requires Inv(q) && q.study.Some?
    ensures var r := Enqueued(q, batch);
            DependenciesVerified(r) && BestIsExtremum(r) &&
            forall n | n in r.rows && r.rows[n].state == VERIFIED :: r.rows[n].score.Some?
  {
    var r := Enqueued(q, batch);
    AddRowsAdds(q.rows, batch);
    assert forall n | n in r.rows && r.rows[n].state != PENDING :: n in q.rows && r.rows[n] == q.rows[n];
  }

  lemma EnqueuedIsListed(q: State, batch: seq<(Name, Job)>, absent: bool)
    requires Inv(q) && MayEnqueue(q, batch, absent)
    ensures Kahn.Lists(Enqueued(q, batch).order, Enqueued(q, batch).rows)
  {
    var r := Enqueued(q, batch);
    AddRowsAdds(q.rows, batch);
    AddOrderLists(q.rows, q.order, batch);
    forall n ensures n in r.order <==> n in r.rows {
      if n in r.rows && n !in q.rows {
        var i :| 0 <= i < |batch| && batch[i] == (n, r.rows[n].job);
        assert batch[i].0 == n;
      }
    }
  }

  /** Changing rows but no definition keeps graph, order and index. */
  lemma SameJobs(q: State, r: State)
    requires Inv(q) && r.rows.Keys == q.rows.Keys && (forall n | n in q.rows :: r.rows[n].job == q.rows[n].job)
    requires r.order == q.order && r.index == q.index
    ensures Kahn.Lists(r.order, r.rows) && GraphOk(r.rows) && r.index == IndexOf(r.rows)
  {
    assert DepsOf(r.rows) == DepsOf(q.rows);
    assert OutputsOf(r.rows) == OutputsOf(q.rows);
    assert IndexOf(r.rows) == IndexOf(q.rows);
  }

  lemma ReadyRestsOnVerified(q: State, n: Name)
    requires Inv(q) && IsReady(q, n)
    ensures forall d | d in q.rows[n].job.dependsOn :: d in q.rows && q.rows[d].state == VERIFIED
  {
    forall d | d in q.rows[n].job.dependsOn ensures d in q.rows && q.rows[d].state == VERIFIED {
      assert (n, d) in q.index;
    }
  }

  lemma ClaimKeepsInv(q: State, nonce: string)
    requires Inv(q)
    ensures Inv(Claimed(q, nonce))
  {
    if ReadyRow(q).Some? {
      ClaimKeepsJobs(q, nonce);
      ClaimKeepsTruth(q, nonce);
    }
  }

  lemma ClaimKeepsTruth(q: State, nonce: string)
    requires Inv(q) && ReadyRow(q).Some?
    ensures var r := Claimed(q, nonce);
            && DependenciesVerified(r) && BestIsExtremum(r)
            && (forall n | n in r.rows && r.rows[n].state == VERIFIED :: r.rows[n].score.Some?)
  {
    ReadyRestsOnVerified(q, ReadyRow(q).value);
  }

  lemma ClaimKeepsJobs(q: State, nonce: string)
    requires Inv(q) && ReadyRow(q).Some?
    ensures var r := Claimed(q, nonce); Kahn.Lists(r.order, r.rows) && GraphOk(r.rows) && r.index == IndexOf(r.rows)
  {
    SameJobs(q, Claimed(q, nonce));
  }

  lemma CommitKeepsInv(q: State, id: Name, result: JobState, score: real)
    requires Inv(q) && q.study.Some? && id in q.rows && q.rows[id].state == RUNNING &&
             result in {VERIFIED, FAILED, ERROR, STALE}
    ensures Inv(Committed(q, id, result, score))
  {
    SameJobs(q, Committed(q, id, result, score));
  }

  /** Changes that verify nothing and start nothing. */
  lemma QuietChange(q: State, r: State)
    requires Inv(q) && r.rows.Keys == q.rows.Keys && r.order == q.order && r.index == q.index
    requires forall n | n in q.rows :: r.rows[n].job == q.rows[n].job && r.rows[n].score == q.rows[n].score
    requires forall n | n in q.rows :: r.rows[n].state == VERIFIED <==> q.rows[n].state == VERIFIED
    requires forall n | n in q.rows :: Started(r.rows[n].state) ==> Started(q.rows[n].state)
    requires q.study.Some? && r.study.Some?
    requires r.study.value.best == q.study.value.best && r.study.value.maximize == q.study.value.maximize
    ensures Inv(r)
  {
    SameJobs(q, r);
    QuietKeepsTruth(q, r);
  }

  lemma QuietKeepsTruth(q: State, r: State)
    requires DependenciesVerified(q) && BestIsExtremum(q) && r.rows.Keys == q.rows.Keys
    requires forall n | n in q.rows :: r.rows[n].job == q.rows[n].job && r.rows[n].score == q.rows[n].score
    requires forall n | n in q.rows :: r.rows[n].state == VERIFIED <==> q.rows[n].state == VERIFIED
    requires forall n | n in q.rows :: Started(r.rows[n].state) ==> Started(q.rows[n].state)
    requires q.study.Some? && r.study.Some?
    requires r.study.value.best == q.study.value.best && r.study.value.maximize == q.study.value.maximize
    ensures DependenciesVerified(r) && BestIsExtremum(r)
  {
  }

  lemma RecoverKeepsInv(q: State)
    requires Inv(q) && q.study.Some?
    ensures Inv(Recovered(q))
  {
    QuietChange(q, Recovered(q));
  }

  lemma CancelKeepsInv(q: State, ids: set<Name>)
    requires Inv(q) && q.study.Some? && forall n | n in ids :: n in q.rows && q.rows[n].state in {PENDING, CANCELLED}
    ensures Inv(Cancelled(q, ids))
  {
    QuietChange(q, Cancelled(q, ids));
  }

  /** Commands that only move the study record. */
  predicate StudyOnly(c: Command) {
    c.Configure? || c.Start? || c.LaunchFailed? || c.WorkerUp? || c.WorkerDrained? || c.Pause? || c.Finish?
  }

  lemma StudyOnlyKeepsInv(q: State, c: Command)
    requires Inv(q) && StudyOnly(c)
    ensures Inv(Apply(q, c)) && Apply(q, c).rows == q.rows
  {
    var r := Apply(q, c);
    StudyOnlyMoves(q, c);
    SameBest(q, r);
  }

  /** Of the study, such a command leaves the best as it is, or there were no jobs to rank. */
  lemma StudyOnlyMoves(q: State, c: Command)
    requires Inv(q) && StudyOnly(c)
    ensures var r := Apply(q, c);
            && r == q.(study := r.study) && (r.study.None? ==> q.study.None?)
            && (q.study.Some? ==> r.study.value.best == q.study.value.best &&
                                  r.study.value.maximize == q.study.value.maximize)
            && (q.study.None? && r.study.Some? ==> r.study.value.best == None)
  {
  }

  lemma SameBest(q: State, r: State)
    requires Inv(q) && r == q.(study := r.study) && (r.study.None? ==> q.study.None?)
    requires q.study.Some? ==> r.study.value.best == q.study.value.best &&
                               r.study.value.maximize == q.study.value.maximize
    requires q.study.None? && r.study.Some? ==> r.study.value.best == None
    ensures Inv(r)
  {
  }

  lemma CommandKeepsInv(q: State, c: Command)
    requires Inv(q) && !StudyOnly(c) && Apply(q, c) != q
    ensures Inv(Apply(q, c))
  {
    match c
    case Enqueue(batch, absent) => EnqueueKeepsInv(q, batch, absent);
    case Claim(nonce, valid) =>
      ClaimKeepsInv(q, nonce);
      if !valid {
        QuietChange(q, SetPhase(q, PAUSING));
      }
    case Commit(id, nonce, result, score) => CommitKeepsInv(q, id, result, score);
    case Recover(_, _) => RecoverKeepsInv(q);
    case Cancel(ids) => CancelKeepsInv(q, ids);
  }

  lemma CommandEvolves(q: State, c: Command)
    requires !StudyOnly(c)
    ensures Evolves(q, Apply(q, c))
  {
    if c.Enqueue? {
      AddRowsAdds(q.rows, c.batch);
    }
  }

  /** Every command keeps the invariant and moves every row along the automaton only. */
  lemma ApplyKeepsInv(q: State, c: Command)
    requires Inv(q)
    ensures Inv(Apply(q, c)) && Evolves(q, Apply(q, c))
  {
    if StudyOnly(c) {
      StudyOnlyKeepsInv(q, c);
    } else {
      CommandEvolves(q, c);
      if Apply(q, c) != q {
        CommandKeepsInv(q, c);
      }
    }
  }

  lemma {:induction false} RunKeepsInv(q: State, cs: seq<Command>)
    requires Inv(q)
    ensures Inv(Run(q, cs))
    decreases |cs|
  {
    if cs != [] {
      ApplyKeepsInv(q, cs[0]);
      RunKeepsInv(Apply(q, cs[0]), cs[1..]);
    }
  }

  // ---------- truth of the queue's signals ----------

  /** Started work rests on verified work, all the way down. */
  lemma {:induction false} StartedHasVerifiedAncestors(q: State, p: seq<Name>)
    requires Inv(q) && Chain(DepsOf(q.rows), p) && |p| >= 2 && Started(q.rows[p[0]].state)
    ensures q.rows[p[|p| - 1]].state == VERIFIED
    decreases |p|
  {
    var g := DepsOf(q.rows);
    assert p[1] in g[p[0]] && g[p[0]] == q.rows[p[0]].job.dependsOn;
    assert q.rows[p[1]].state == VERIFIED;
    if |p| > 2 {
      assert Chain(g, p[1..]);
      StartedHasVerifiedAncestors(q, p[1..]);
    }
  }

  lemma StartedRestsOnVerified(q: State, n: Name, a: Name)
    requires Inv(q) && n in q.rows && Started(q.rows[n].state) && DependsOn(DepsOf(q.rows), n, a)
    ensures a in q.rows && q.rows[a].state == VERIFIED
  {
    var g := DepsOf(q.rows);
    var p :| Chain(g, p) && |p| >= 2 && p[0] == n && p[|p| - 1] == a;
    StartedHasVerifiedAncestors(q, p);
  }

  ghost predicate DeadAncestor(q: State, n: Name) {
    exists a :: a in q.rows && Dead(q.rows[a].state) && DependsOn(DepsOf(q.rows), n, a)
  }

  /** The condition under which _wake_reason says DEPENDENCY_BLOCKED. */
  ghost predicate Idle(q: State) {
    (forall n | n in q.rows :: q.rows[n].state != RUNNING) && (forall n | n in q.rows :: !IsReady(q, n))
  }

  /** A pending job that is not ready waits for one that is not verified. */
  lemma WaitsFor(q: State, m: Name) returns (d: Name)
    requires Inv(q) && m in q.rows && q.rows[m].state == PENDING && !IsReady(q, m)
    ensures d in q.rows[m].job.dependsOn && d in q.rows && q.rows[d].state != VERIFIED
  {
    var e :| e in q.index && e.0 == m && !(e.1 in q.rows && q.rows[e.1].state == VERIFIED);
    d := e.1;
    assert d in DepsOf(q.rows)[m] && d in DepsOf(q.rows);
  }

  /** A waiting job without a dead ancestor waits for another waiting job without a dead ancestor. */
  lemma WaitsForWaiting(q: State, m: Name) returns (d: Name)
    requires Inv(q) && Idle(q) && m in q.rows && q.rows[m].state == PENDING && !DeadAncestor(q, m)
    ensures d in q.rows[m].job.dependsOn && d in q.rows && q.rows[d].state == PENDING && !DeadAncestor(q, d)
  {
    d := WaitsFor(q, m);
    var g := DepsOf(q.rows);
    assert d in g[m] && d in g;
    DirectDependency(g, m, d);
    if DeadAncestor(q, d) {
      var a :| a in q.rows && Dead(q.rows[a].state) && DependsOn(g, d, a);
      DependsOnTransitive(g, m, d, a);
    }
    assert d in q.rows && DependsOn(g, m, d) && !Dead(q.rows[d].state);
  }

  /** A blocked queue is really blocked: every pending job waits, directly or not, for one that ended unverified. */
  lemma BlockedIsTruthful(q: State, n: Name)
    requires Inv(q) && Idle(q) && n in q.rows && q.rows[n].state == PENDING
    ensures DeadAncestor(q, n)
  {
    var stuck := set m | m in q.rows && q.rows[m].state == PENDING && !DeadAncestor(q, m);
    if n in stuck {
      var m := AcyclicHasSource(DepsOf(q.rows), stuck);
      var d := WaitsForWaiting(q, m);
    }
  }

  /** Without failures and cancellations a queue with pending work never stalls. */
  lemma HealthyQueueProgresses(q: State, n: Name)
    requires Inv(q) && n in q.rows && q.rows[n].state == PENDING
    requires forall m | m in q.rows :: !Dead(q.rows[m].state) && q.rows[m].state != RUNNING
    ensures ReadyRow(q).Some?
  {
    if ReadyRow(q).None? {
      assert q.order[0..] == q.order;
      BlockedIsTruthful(q, n);
    }
  }

  /** Definitions are immutable, so ancestry only grows with the queue. */
  lemma {:induction false} AncestryStays(q: State, r: State, p: seq<Name>)
    requires Evolves(q, r) && Chain(DepsOf(q.rows), p)
    ensures Chain(DepsOf(r.rows), p)
  {
    var g, h := DepsOf(q.rows), DepsOf(r.rows);
    forall i | 0 <= i < |p| ensures p[i] in h && h[p[i]] == g[p[i]] {
      assert p[i] in g;
    }
  }

  lemma DeadAncestorStays(q: State, r: State, n: Name)
    requires Evolves(q, r) && DeadAncestor(q, n)
    ensures DeadAncestor(r, n)
  {
    var a :| a in q.rows && Dead(q.rows[a].state) && DependsOn(DepsOf(q.rows), n, a);
    var p :| Chain(DepsOf(q.rows), p) && |p| >= 2 && p[0] == n && p[|p| - 1] == a;
    AncestryStays(q, r, p);
    assert DependsOn(DepsOf(r.rows), n, a);
  }

  lemma BlockedIsNotStarted(q: State, n: Name)
    requires Inv(q) && n in q.rows && DeadAncestor(q, n)
    ensures !Started(q.rows[n].state)
  {
    var a :| a in q.rows && Dead(q.rows[a].state) && DependsOn(DepsOf(q.rows), n, a);
    if Started(q.rows[n].state) {
      StartedRestsOnVerified(q, n, a);
    }
  }

  /** ... and such a job can never run: whatever commands follow, it stays pending or is cancelled. */
  lemma {:induction false} BlockedNeverRuns(q: State, cs: seq<Command>, n: Name)
    requires Inv(q) && n in q.rows && !Started(q.rows[n].state) && DeadAncestor(q, n)
    ensures n in Run(q, cs).rows && !Started(Run(q, cs).rows[n].state)
    decreases |cs|
  {
    if cs != [] {
      var r := Apply(q, cs[0]);
      ApplyKeepsInv(q, cs[0]);
      DeadAncestorStays(q, r, n);
      BlockedIsNotStarted(r, n);
      BlockedNeverRuns(r, cs[1..], n);
    }
  }

  /** Terminal jobs keep state, definition and score for ever. */
  lemma {:induction false} TerminalForEver(q: State, cs: seq<Command>, n: Name)
    requires Inv(q) && n in q.rows && Terminal(q.rows[n].state)
    ensures n in Run(q, cs).rows
    ensures var r := Run(q, cs).rows[n];
            r.state == q.rows[n].state && r.job == q.rows[n].job && r.score == q.rows[n].score
    decreases |cs|
  {
    if cs != [] {
      ApplyKeepsInv(q, cs[0]);
      TerminalForEver(Apply(q, cs[0]), cs[1..], n);
    }
  }

  /** A job is handed out at most once: after its claim it never becomes claimable again. */
  lemma {:induction false} StartedForEver(q: State, cs: seq<Command>, n: Name)
    requires Inv(q) && n in q.rows && Started(q.rows[n].state)
    ensures n in Run(q, cs).rows && Started(Run(q, cs).rows[n].state) && !IsReady(Run(q, cs), n)
    decreases |cs|
  {
    if cs != [] {
      ApplyKeepsInv(q, cs[0]);
      StartedForEver(Apply(q, cs[0]), cs[1..], n);
    }
  }

  /** Everything at once, for the state after any list of commands on an unconfigured queue. */
  lemma ReachableQueue(cs: seq<Command>)
    ensures var q := Run(EMPTY, cs);
            && GraphOk(q.rows) && q.index == IndexOf(q.rows) && BestIsExtremum(q)
            && forall n, a | n in q.rows && Started(q.rows[n].state) && DependsOn(DepsOf(q.rows), n, a) ::
                 a in q.rows && q.rows[a].state == VERIFIED
  {
    var q := Run(EMPTY, cs);
    EmptyInv();
    RunKeepsInv(EMPTY, cs);
    forall n, a | n in q.rows && Started(q.rows[n].state) && DependsOn(DepsOf(q.rows), n, a)
      ensures a in q.rows && q.rows[a].state == VERIFIED
    {
      StartedRestsOnVerified(q, n, a);
    }
  }

  lemma {:induction false} AddOrderFrom(rows: map<Name, Row>, order: seq<Name>, batch: seq<(Name, Job)>)
    ensures AddOrder(rows, order, batch) == order + AddOrder(rows, [], batch)
    decreases |batch|
  {
    if batch != [] {
      var n := batch[0].0;
      if n !in rows {
        AddOrderFrom(rows, order + [n], batch[1..]);
        AddOrderFrom(rows, [n], batch[1..]);
        assert [] + [n] == [n];
        assert order + [n] + AddOrder(rows, [], batch[1..]) == order + ([n] + AddOrder(rows, [], batch[1..]));
      } else {
        AddOrderFrom(rows, order, batch[1..]);
      }
    }
  }
}
