/** Who a claimed job belongs to and who may end it, and what the other queue commands do to rows. */
module QueueClaims {
  import opened Wrappers
  import opened Graph
  import opened Queue
  import opened QueueTruth

  // ---------- claims ----------

  /** The job is handed to this claimer: it runs under the claimer's nonce, and nothing else of it changes. */
  ghost predicate HandedOut(q: State, r: State, n: Name, nonce: string) {
    && n in q.rows && n in r.rows && q.rows[n].state == PENDING
    && r.rows[n] == q.rows[n].(state := RUNNING, nonce := Some(nonce))
    && r == q.(rows := q.rows[n := r.rows[n]])
  }

  /** n is the first job in insertion order that is pending with all its dependencies verified. */
  ghost predicate FirstReady(q: State, n: Name) {
    exists i :: 0 <= i < |q.order| && q.order[i] == n && ReadyNow(q, n) &&
                forall k | 0 <= k < i :: !ReadyNow(q, q.order[k])
  }

  ghost predicate ReadyNow(q: State, n: Name) {
    n in q.rows && q.rows[n].state == PENDING &&
    forall d | d in q.rows[n].job.dependsOn :: d in q.rows && q.rows[d].state == VERIFIED
  }

  lemma ReadyAgrees(q: State, n: Name)
    requires Inv(q)
    ensures IsReady(q, n) <==> ReadyNow(q, n)
  {
    if IsReady(q, n) {
      ReadyRestsOnVerified(q, n);
    }
  }

  /** An active study hands its first ready job to its controller, if there is one; every other claim gives nothing, and
      one that finds the contract broken pauses the study. */
  lemma ClaimHandsOut(q: State, nonce: string, valid: bool)
    requires Inv(q)
    ensures var r := Apply(q, Claim(nonce, valid));
            var active := q.study.Some? && q.study.value.nonce == Some(nonce) && q.study.value.phase == ACTIVE;
            if active && valid then (exists n :: FirstReady(q, n) && HandedOut(q, r, n, nonce)) ||
                                    (r == q && forall n :: !ReadyNow(q, n))
            else if active then r == q.(study := Some(q.study.value.(phase := PAUSING)))
            else r == q
  {
    forall n ensures IsReady(q, n) <==> ReadyNow(q, n) {
      ReadyAgrees(q, n);
    }
    var r := Apply(q, Claim(nonce, valid));
    var first := ReadyRow(q);
    if q.study.Some? && q.study.value.nonce == Some(nonce) && q.study.value.phase == ACTIVE && valid {
      if first.Some? {
        var i :| 0 <= i < |q.order| && q.order[i] == first.value && forall k | 0 <= k < i :: !IsReady(q, q.order[k]);
        assert FirstReady(q, first.value) && HandedOut(q, r, first.value, nonce);
      } else {
        forall n ensures !ReadyNow(q, n) {
          if n in q.rows {
            assert n in q.order && n in q.order[0..];
          }
        }
      }
    }
  }

  /** The job runs for this claimer. */
  ghost predicate RunsFor(q: State, n: Name, nonce: string) {
    n in q.rows && q.rows[n].state == RUNNING && q.rows[n].nonce == Some(nonce) && q.study.Some?
  }

  /** The job is over as the commit says: its state, and a score only if it was verified. */
  ghost predicate EndedAs(q: State, r: State, n: Name, result: JobState, score: real) {
    && n in q.rows && n in r.rows && r.rows.Keys == q.rows.Keys
    && r.rows[n] == q.rows[n].(state := result, score := if result == VERIFIED then Some(score) else None)
    && (forall m | m in q.rows && m != n :: r.rows[m] == q.rows[m])
  }

  /** A verified score becomes the best of the study if there is none yet, or if it is larger, or smaller where the
      smallest is wanted; the revision counts the commit. */
  ghost predicate Ranked(q: State, r: State, n: Name, result: JobState, score: real) {
    && q.study.Some? && r == q.(rows := r.rows, study := r.study)
    && var best := q.study.value.best;
       var takes := result == VERIFIED && match best case None => true
                    case Some(b) => if q.study.value.maximize then score > b.score else score < b.score;
       r.study == Some(q.study.value.(revision := q.study.value.revision + 1,
                                      best := if takes then Some(Best(n, score)) else best))
  }

  /** In every run the best of the study is the largest verified score, or the smallest where that is wanted, and stands
      for a verified job; there is none only as long as none is verified. */
  lemma BestIsBest(cs: seq<Command>)
    ensures var q := Run(EMPTY, cs);
            q.study.Some? ==>
              match q.study.value.best
              case None => forall n | n in q.rows :: q.rows[n].state != VERIFIED
              case Some(b) =>
                && b.id in q.rows && q.rows[b.id].state == VERIFIED && q.rows[b.id].score == Some(b.score)
                && forall n | n in q.rows && q.rows[n].state == VERIFIED ::
                     q.rows[n].score.Some? &&
                     if q.study.value.maximize then q.rows[n].score.value <= b.score
                     else b.score <= q.rows[n].score.value
  {
    EmptyInv();
    RunKeepsInv(EMPTY, cs);
  }

  /** A commit is granted exactly to the claimer of a running job, for one of the four results. */
  lemma CommitIsGranted(q: State, n: Name, nonce: string, result: JobState, score: real)
    ensures var r := Apply(q, Commit(n, nonce, result, score));
            if RunsFor(q, n, nonce) && result in {VERIFIED, FAILED, ERROR, STALE}
            then EndedAs(q, r, n, result, score) && Ranked(q, r, n, result, score) else r == q
  {
  }

  /** While a job runs its claimer stays the same; it ends only by its claimer's commit or by a recovery. */
  lemma StepKeepsClaim(q: State, c: Command, n: Name, nonce: string)
    requires RunsFor(q, n, nonce)
    ensures var r := Apply(q, c);
            n in r.rows &&
            (RunsFor(r, n, nonce) || (c.Commit? && c.id == n && c.owner == nonce) ||
             (c.Recover? && r.rows[n].state == ERROR))
  {
    match c
    case Enqueue(batch, absent) =>
      if MayEnqueue(q, batch, absent) {
        AddRowsAdds(q.rows, batch);
      }
    case _ =>
  }

  lemma {:induction false} RunKeepsClaim(q: State, cs: seq<Command>, n: Name, nonce: string)
    requires Inv(q) && RunsFor(q, n, nonce) && n in Run(q, cs).rows && Run(q, cs).rows[n].state == RUNNING
    ensures RunsFor(Run(q, cs), n, nonce)
    decreases |cs|
  {
    if cs != [] {
      var m := Apply(q, cs[0]);
      StepKeepsClaim(q, cs[0], n, nonce);
      ApplyKeepsInv(q, cs[0]);
      if Terminal(m.rows[n].state) {
        TerminalForEver(m, cs[1..], n);
      } else {
        RunKeepsClaim(m, cs[1..], n, nonce);
      }
    }
  }

  lemma HandedOutRuns(q: State, nonce: string, n: Name)
    requires Inv(q) && n in q.rows && q.rows[n].state == PENDING
    requires n in Apply(q, Claim(nonce, true)).rows && Apply(q, Claim(nonce, true)).rows[n].state == RUNNING
    ensures RunsFor(Apply(q, Claim(nonce, true)), n, nonce)
  {
    ClaimHandsOut(q, nonce, true);
  }

  lemma ClaimLaw(q: State, nonce: string, n: Name, cs: seq<Command>, result: JobState, score: real)
    requires Inv(q) && RunsFor(q, n, nonce) && result in {VERIFIED, FAILED, ERROR, STALE}
    requires n in Run(q, cs).rows && Run(q, cs).rows[n].state == RUNNING
    ensures var z := Run(q, cs);
            && EndedAs(z, Apply(z, Commit(n, nonce, result, score)), n, result, score)
            && forall other | other != nonce :: Apply(z, Commit(n, other, result, score)) == z
  {
    RunKeepsClaim(q, cs, n, nonce);
    var z := Run(q, cs);
    CommitIsGranted(z, n, nonce, result, score);
    forall other | other != nonce ensures Apply(z, Commit(n, other, result, score)) == z {
      CommitIsGranted(z, n, other, result, score);
    }
  }

  /** The law of claims: after a claim handed out a job, whatever happens, as long as the job still runs its claimer's
      commit ends it as it says, and nobody else's commit changes anything. */
  lemma ClaimantAlone(history: seq<Command>, nonce: string, n: Name, cs: seq<Command>, result: JobState, score: real)
    requires result in {VERIFIED, FAILED, ERROR, STALE}
    requires var q := Run(EMPTY, history); n in q.rows && q.rows[n].state == PENDING
    requires var m := Apply(Run(EMPTY, history), Claim(nonce, true)); n in m.rows && m.rows[n].state == RUNNING
    requires var z := Run(Apply(Run(EMPTY, history), Claim(nonce, true)), cs); n in z.rows && z.rows[n].state == RUNNING
    ensures var z := Run(Apply(Run(EMPTY, history), Claim(nonce, true)), cs);
            && EndedAs(z, Apply(z, Commit(n, nonce, result, score)), n, result, score)
            && forall other | other != nonce :: Apply(z, Commit(n, other, result, score)) == z
  {
    var q := Run(EMPTY, history);
    EmptyInv();
    RunKeepsInv(EMPTY, history);
    HandedOutRuns(q, nonce, n);
    ApplyKeepsInv(q, Claim(nonce, true));
    ClaimLaw(Apply(q, Claim(nonce, true)), nonce, n, cs, result, score);
  }

  // ---------- other commands ----------

  /** A cancellation is granted exactly to a set of jobs that are all pending or cancelled; then all of them are
      cancelled and no other row changes. */
  lemma CancelIsGranted(q: State, ids: set<Name>)
    ensures var r := Apply(q, Cancel(ids));
            if q.study.Some? && ids != {} &&
               forall n | n in ids :: n in q.rows && q.rows[n].state in {PENDING, CANCELLED}
            then && r.rows.Keys == q.rows.Keys && r == q.(rows := r.rows, study := r.study)
                 && r.study == Some(q.study.value.(revision := q.study.value.revision + 1))
                 && (forall n | n in ids :: r.rows[n] == q.rows[n].(state := CANCELLED))
                 && (forall n | n in q.rows && n !in ids :: r.rows[n] == q.rows[n])
            else r == q
  {
  }

  /** A recovery takes place only after controller and jobs of a started study have exited; then exactly the running
      jobs become errors and the study pauses. */
  lemma RecoveryIsGranted(q: State, controllerExited: bool, jobsExited: bool)
    ensures var r := Apply(q, Recover(controllerExited, jobsExited));
            if q.study.Some? && q.study.value.phase in {ACTIVE, STARTING, PAUSING} && controllerExited && jobsExited
            then && r.rows.Keys == q.rows.Keys && r.study.Some? && r.study.value.phase == PAUSED
                 && r.study.value == q.study.value.(phase := PAUSED, revision := q.study.value.revision + 1 +
                      |set n | n in q.rows && q.rows[n].state == RUNNING|)
                 && (forall n | n in q.rows && q.rows[n].state == RUNNING :: r.rows[n] == q.rows[n].(state := ERROR))
                 && (forall n | n in q.rows && q.rows[n].state != RUNNING :: r.rows[n] == q.rows[n])
            else r == q
  {
  }

  /** What a batch adds has not run. */
  lemma {:induction false} NewRowsAreFresh(rows: map<Name, Row>, batch: seq<(Name, Job)>, n: Name)
    requires n in AddRows(rows, batch) && n !in rows
    ensures AddRows(rows, batch)[n] == Row(AddRows(rows, batch)[n].job, PENDING, None, None)
    decreases |batch|
  {
    var (m, job) := batch[0];
    var next := if m in rows then rows else rows[m := Row(job, PENDING, None, None)];
    if n in next {
      AddRowsAdds(next, batch[1..]);
    } else {
      NewRowsAreFresh(next, batch[1..], n);
    }
  }

  /** A batch of up to 256 differently named jobs is admitted to an unfinished study exactly if the names it repeats
      repeat their definitions, all jobs together are at most 10000 and form a sound graph, and the outputs of new ones
      do not exist yet. */
  lemma AdmissionIsExact(q: State, batch: seq<(Name, Job)>, absent: bool)
    ensures MayEnqueue(q, batch, absent) <==>
              && 1 <= |batch| <= 256 && (forall i, j | 0 <= i < j < |batch| :: batch[i].0 != batch[j].0)
              && q.study.Some? && q.study.value.phase != FINISHED
              && (forall i | 0 <= i < |batch| && batch[i].0 in q.rows :: q.rows[batch[i].0].job == batch[i].1)
              && |AddRows(q.rows, batch)| <= 10000 && GraphOk(AddRows(q.rows, batch))
              && (absent || forall i | 0 <= i < |batch| :: batch[i].0 in q.rows)
  {
    if forall i | 0 <= i < |batch| :: batch[i].0 in q.rows {
      NothingNew(q.rows, batch, []);
    } else {
      var i :| 0 <= i < |batch| && batch[i].0 !in q.rows;
      SomethingNew(q.rows, batch, [], i);
    }
  }

  /** What is admitted is added as a whole: old jobs stay, new ones are pending, as defined, in the order of the batch.
      */
  lemma AdmittedIsAdded(q: State, batch: seq<(Name, Job)>, absent: bool)
    requires MayEnqueue(q, batch, absent)
    ensures var r := Apply(q, Enqueue(batch, absent));
            && AddedTo(q.rows, r.rows, batch) && r.order == AddOrder(q.rows, q.order, batch) && q.order <= r.order
  {
    RowsAdded(q.rows, batch);
    OrderGrows(q.rows, batch, q.order);
  }

  lemma NewIsCounted(q: State, batch: seq<(Name, Job)>)
    ensures |AddOrder(q.rows, q.order, batch)| == |q.order| + NewJobs(q, batch)
  {
    AddOrderFrom(q.rows, q.order, batch);
  }

  /** The revision counts the new jobs, and nothing else of the study changes. */
  lemma AdmittedIsCounted(q: State, batch: seq<(Name, Job)>, absent: bool, added: nat)
    requires MayEnqueue(q, batch, absent) && |Apply(q, Enqueue(batch, absent)).order| == |q.order| + added
    ensures q.study.Some?
    ensures Apply(q, Enqueue(batch, absent)).study ==
            Some(q.study.value.(revision := q.study.value.revision + added))
  {
    NewIsCounted(q, batch);
  }

  ghost predicate AddedTo(rows: map<Name, Row>, all: map<Name, Row>, batch: seq<(Name, Job)>) {
    && (forall n | n in rows :: n in all && all[n] == rows[n])
    && (forall i | 0 <= i < |batch| && batch[i].0 !in rows ::
          batch[i].0 in all && all[batch[i].0] == Row(batch[i].1, PENDING, None, None))
    && (forall n | n in all && n !in rows :: exists i :: 0 <= i < |batch| && batch[i].0 == n)
  }

  lemma RowsAdded(rows: map<Name, Row>, batch: seq<(Name, Job)>)
    requires forall i, j | 0 <= i < j < |batch| :: batch[i].0 != batch[j].0
    ensures AddedTo(rows, AddRows(rows, batch), batch)
  {
    var all := AddRows(rows, batch);
    AddRowsAdds(rows, batch);
    forall i | 0 <= i < |batch| && batch[i].0 !in rows ensures all[batch[i].0] == Row(batch[i].1, PENDING, None, None) {
      NewRowsAreFresh(rows, batch, batch[i].0);
      var j :| 0 <= j < |batch| && batch[j] == (batch[i].0, all[batch[i].0].job);
      assert j == i;
    }
    forall n | n in all && n !in rows ensures exists i :: 0 <= i < |batch| && batch[i].0 == n {
      var i :| 0 <= i < |batch| && batch[i] == (n, all[n].job);
      assert batch[i].0 == n;
    }
  }

  lemma {:induction false} NothingNew(rows: map<Name, Row>, batch: seq<(Name, Job)>, order: seq<Name>)
    requires forall i | 0 <= i < |batch| :: batch[i].0 in rows
    ensures AddOrder(rows, order, batch) == order
    decreases |batch|
  {
    if batch != [] {
      assert batch[0].0 in rows;
      assert forall i | 0 <= i < |batch| - 1 :: batch[1..][i] == batch[i + 1];
      NothingNew(rows, batch[1..], order);
    }
  }

  lemma {:induction false} SomethingNew(rows: map<Name, Row>, batch: seq<(Name, Job)>, order: seq<Name>, i: nat)
    requires i < |batch| && batch[i].0 !in rows
    ensures |AddOrder(rows, order, batch)| > |order|
    decreases |batch|
  {
    var m := batch[0].0;
    var next := if m in rows then order else order + [m];
    OrderGrows(rows, batch[1..], next);
    if i > 0 {
      SomethingNew(rows, batch[1..], next, i - 1);
    }
  }

  lemma {:induction false} OrderGrows(rows: map<Name, Row>, batch: seq<(Name, Job)>, order: seq<Name>)
    ensures order <= AddOrder(rows, order, batch)
    decreases |batch|
  {
    if batch != [] {
      var m := batch[0].0;
      OrderGrows(rows, batch[1..], if m in rows then order else order + [m]);
    }
  }

  // ---------- the study ----------

  /** Only the record of the study differs, and of it only phase, nonce and revision. */
  ghost predicate Steered(q: State, r: State, phase: Phase, nonce: Option<string>, steps: nat) {
    q.study.Some? &&
    r == q.(study := Some(q.study.value.(phase := phase, nonce := nonce, revision := q.study.value.revision + steps)))
  }

  predicate InPhase(q: State, phase: Phase) {
    q.study.Some? && q.study.value.phase == phase
  }

  predicate HeldBy(q: State, nonce: string) {
    q.study.Some? && q.study.value.nonce == Some(nonce)
  }

  predicate NoneIs(q: State, state: JobState) {
    forall n | n in q.rows :: q.rows[n].state != state
  }

  lemma CountIsNone(q: State, state: JobState)
    ensures Count(q, state) == 0 <==> NoneIs(q, state)
  {
    var these := set n | n in q.rows && q.rows[n].state == state;
    if NoneIs(q, state) {
      assert these == {};
    } else {
      var n :| n in q.rows && q.rows[n].state == state;
      assert n in these;
    }
  }

  /** The study starts from a pause under its starter's nonce, and is active when the worker of that nonce is up. */
  lemma StudyStarts(q: State, nonce: string)
    ensures var r := Apply(q, Start(nonce));
            if InPhase(q, PAUSED) then Steered(q, r, STARTING, Some(nonce), 0) else r == q
    ensures var r := Apply(q, WorkerUp(nonce));
            if InPhase(q, STARTING) && HeldBy(q, nonce) then Steered(q, r, ACTIVE, Some(nonce), 0) else r == q
    ensures var r := Apply(q, LaunchFailed(nonce));
            if HeldBy(q, nonce) then Steered(q, r, PAUSED, Some(nonce), 0) else r == q
  {
  }

  /** It pauses only once nothing runs, and is finished only from a pause with nothing left to run. */
  lemma StudyStops(q: State, nonce: string)
    ensures var r := Apply(q, Pause);
            if q.study.None? || InPhase(q, FINISHED) then r == q
            else Steered(q, r, if q.study.value.phase in {ACTIVE, STARTING} then PAUSING else q.study.value.phase,
                         q.study.value.nonce, 1)
    ensures var r := Apply(q, WorkerDrained(nonce));
            if InPhase(q, PAUSING) && HeldBy(q, nonce) && NoneIs(q, RUNNING)
            then Steered(q, r, PAUSED, Some(nonce), 0) else r == q
    ensures var r := Apply(q, Finish);
            if InPhase(q, PAUSED) && NoneIs(q, RUNNING) && NoneIs(q, PENDING)
            then Steered(q, r, FINISHED, q.study.value.nonce, 1) else r == q
  {
    CountIsNone(q, RUNNING);
    CountIsNone(q, PENDING);
  }

  /** A study is configured once. */
  lemma StudyBegins(q: State, maximize: bool)
    ensures var r := Apply(q, Configure(maximize));
            if q.study.Some? then r == q
            else r == q.(study := Some(Study(PAUSED, maximize, 0, None, None)))
  {
  }
}
