/** Bounds that hold in every run of the fixed crew: how often a ticket may be dispatched, and who may write where. */
module CrewBudget {
  import opened Wrappers
  import Paths
  import opened Work
  import opened Crew
  import opened CrewInv
  import opened CrewCalls

  /** The calls ever authorised for a ticket. */
  function CallsOf(ds: seq<Dispatch>, t: Ticket): set<CallId> {
    set i | 0 <= i < |ds| && ds[i].payload.ticket == t :: ds[i].call
  }

  /** A ticket's current dispatch was used: it is live, or its row left the reservation. */
  ghost predicate Spent(s: State, t: Ticket) {
    TicketLive(s, t) || (t in s.work && s.work[t].stage != Pending && s.work[t].stage != Reserved)
  }

  /** Each recovery pays for one dispatch beside the first, refusals aside. */
  ghost predicate WithinBudget(s: State, t: Ticket) {
    |CallsOf(s.dispatches, t) - Refused(s)| <= Recoveries(s, t) + (if Spent(s, t) then 1 else 0) &&
    Recoveries(s, t) <= MAX_RECOVERIES
  }

  ghost predicate CallOver(ds: seq<Dispatch>, c: CallId) {
    exists i :: 0 <= i < |ds| && ds[i].call == c && !Outstanding(ds[i].state)
  }

  /** A refused call is on record and over. */
  ghost predicate RefusedIsOver(s: State) {
    forall c | c in Refused(s) :: CallOver(s.dispatches, c)
  }

  ghost predicate Budget(s: State) {
    RefusedIsOver(s) && forall t :: WithinBudget(s, t)
  }

  /** No call is authorised and no used dispatch is given back. */
  ghost predicate Calm(s: State, r: State) {
    KeepsCalls(s.dispatches, r.dispatches) && |r.dispatches| == |s.dispatches| &&
    Refused(r) == Refused(s) && r.recoveries == s.recoveries &&
    forall t :: Spent(s, t) ==> Spent(r, t)
  }

  lemma SubsetCount<T>(a: set<T>, b: set<T>)
    requires a <= b
    ensures |a| <= |b|
  {
    assert b == a + (b - a);
  }

  lemma SameCalls(ds: seq<Dispatch>, es: seq<Dispatch>, t: Ticket)
    requires KeepsCalls(ds, es) && |es| == |ds|
    ensures CallsOf(es, t) == CallsOf(ds, t)
  {
    forall c | c in CallsOf(ds, t) ensures c in CallsOf(es, t) {
      var i :| 0 <= i < |ds| && ds[i].payload.ticket == t && ds[i].call == c;
      assert es[i].call == c;
    }
    forall c | c in CallsOf(es, t) ensures c in CallsOf(ds, t) {
      var i :| 0 <= i < |es| && es[i].payload.ticket == t && es[i].call == c;
      assert ds[i].call == c;
    }
  }

  lemma StaysOver(s: State, r: State)
    requires RefusedIsOver(s) && KeepsCalls(s.dispatches, r.dispatches) && Refused(r) == Refused(s)
    ensures RefusedIsOver(r)
  {
    forall c | c in Refused(r) ensures CallOver(r.dispatches, c) {
      var i :| 0 <= i < |s.dispatches| && s.dispatches[i].call == c && !Outstanding(s.dispatches[i].state);
      assert r.dispatches[i].call == c;
    }
  }

  lemma CalmKeepsBudget(s: State, r: State)
    requires Budget(s) && Calm(s, r)
    ensures Budget(r)
  {
    StaysOver(s, r);
    forall t ensures WithinBudget(r, t) {
      assert WithinBudget(s, t);
      SameCalls(s.dispatches, r.dispatches, t);
      SubsetCount(CallsOf(r.dispatches, t) - Refused(r), CallsOf(s.dispatches, t) - Refused(s));
      assert Spent(s, t) ==> Spent(r, t);
    }
  }

  /** Rows keep their plan: what occupies its paths afterwards did so before, for the same task or a read-only one. */
  ghost predicate OwnersShrink(s: State, r: State) {
    r.contract == s.contract &&
    forall t | t in r.work && Occupies(r.work[t].stage) ::
      t in s.work && Occupies(s.work[t].stage) && (r.work[t].task == s.work[t].task || r.work[t].task.kind != Implement)
  }

  /** No two writers of the current round that are reserved, running or returned have overlapping scopes. */
  ghost predicate Exclusive(s: State) {
    s.contract.Some? ==>
      forall i, j | 0 <= i < j < SLOTS && Now(s, i) in s.work && Now(s, j) in s.work &&
                    Occupies(s.work[Now(s, i)].stage) && Occupies(s.work[Now(s, j)].stage) ::
        !Clash(s.work[Now(s, i)].task, s.work[Now(s, j)].task)
  }

  lemma OwnersShrinkKeeps(s: State, r: State)
    requires Exclusive(s) && OwnersShrink(s, r)
    ensures Exclusive(r)
  {
    if s.contract.Some? {
      assert forall i | 0 <= i < SLOTS :: Now(r, i) == Now(s, i);
    }
  }

  // ---------- commands that authorise nothing ----------

  lemma LandsIsCalm(s: State, r: State, t: Ticket)
    requires Lands(s, r, t) && r.recoveries == s.recoveries
    requires r.work[t].stage != Pending && r.work[t].stage != Reserved
    requires Occupies(r.work[t].stage) ==> Occupies(s.work[t].stage) && r.work[t].task == s.work[t].task
    ensures Calm(s, r) && OwnersShrink(s, r)
  {
    forall u | Spent(s, u) ensures Spent(r, u) {
      if u != t && TicketLive(s, u) {
        var i :| 0 <= i < |s.dispatches| && s.dispatches[i].payload.ticket == u && Outstanding(s.dispatches[i].state);
        assert r.dispatches[i] == s.dispatches[i];
      }
    }
  }

  lemma LandIsCalm(s: State, t: Ticket, stage: Stage)
    requires Carried(s) && t in s.work && s.work[t].agent.Some? &&
             (stage == Failed || (stage == Returned && Active(s.work[t].stage)))
    ensures Calm(s, Land(s, t, stage)) && OwnersShrink(s, Land(s, t, stage))
  {
    LandLands(s, t, stage);
    LandsIsCalm(s, Land(s, t, stage), t);
  }

  lemma ObserveIsCalm(s: State, call: CallId, w: Wait, a: Agent, status: Native)
    requires Carried(s) && a in w.snapshot
    ensures var r := Observe(s, call, w, a, status); Calm(s, r) && OwnersShrink(s, r)
  {
    SteadyIsCalm(s, s);
    if Counts(s, w, a) {
      var t := w.snapshot[a].ticket;
      var noted := Noted(s, call, w, a, status);
      SteadyIsCalm(s, noted);
      if Landing(status, s.work[t].stage).Some? {
        var r := Land(noted, t, Landing(status, s.work[t].stage).value);
        LandIsCalm(noted, t, Landing(status, s.work[t].stage).value);
        CalmTwice(s, noted, r);
        OwnersShrinkTwice(s, noted, r);
      }
    }
  }

  lemma CalmTwice(s: State, m: State, r: State)
    requires Calm(s, m) && Calm(m, r)
    ensures Calm(s, r)
  {
  }

  lemma OwnersShrinkTwice(s: State, m: State, r: State)
    requires OwnersShrink(s, m) && OwnersShrink(m, r)
    ensures OwnersShrink(s, r)
  {
  }

  lemma {:induction false} ObserveAllIsCalm(s: State, call: CallId, w: Wait, lone: bool,
                                            statuses: seq<(string, Option<Native>)>)
    requires Inv(s)
    ensures var r := ObserveAll(s, call, w, lone, statuses); Calm(s, r) && OwnersShrink(s, r)
    decreases |statuses|
  {
    if statuses != [] {
      var m := ObserveOne(s, call, w, lone, statuses[0].0, statuses[0].1);
      var a := Resolve(w, lone, statuses[0].0);
      if a.Some? && a.value in w.snapshot && statuses[0].1.Some? {
        ObserveIsCalm(s, call, w, a.value, statuses[0].1.value);
      }
      ObserveOneKeeps(s, call, w, lone, statuses[0].0, statuses[0].1);
      ObserveAllIsCalm(m, call, w, lone, statuses[1..]);
      CalmTwice(s, m, ObserveAll(s, call, w, lone, statuses));
      OwnersShrinkTwice(s, m, ObserveAll(s, call, w, lone, statuses));
    }
  }

  lemma PostWaitIsCalm(s: State, call: CallId, r: WaitResult)
    requires Inv(s)
    ensures var z := PostWait(s, call, r); Calm(s, z) && OwnersShrink(s, z)
  {
    var z := PostWait(s, call, r);
    if call in s.waits && s.waits[call].result.None? {
      var w := s.waits[call];
      var seen := Listen(s, call, w, r);
      if r.statuses.Some? {
        ObserveAllIsCalm(s, call, w, |r.statuses.value| == 1, r.statuses.value);
      }
      SteadyIsCalm(s, s);
      SteadyIsCalm(seen, z);
      CalmTwice(s, seen, z);
      OwnersShrinkTwice(s, seen, z);
    } else {
      SteadyIsCalm(s, z);
    }
  }

  lemma HandBackIsCalm(s: State, a: Agent, status: Status)
    requires Inv(s)
    ensures var r := HandBack(s, a, status); Calm(s, r) && OwnersShrink(s, r)
  {
    var r := HandBack(s, a, status);
    if r != s {
      LandsIsCalm(s, r, s.metas[a].ticket);
    }
  }

  lemma IntegrateIsCalm(s: State, slot: nat, env: Env)
    requires Inv(s)
    ensures var r := Integrate(s, slot, env); Calm(s, r) && OwnersShrink(s, r)
  {
    var r := Integrate(s, slot, env);
    if MayIntegrate(s, slot, env) {
      LandsIsCalm(s, r, Now(s, slot));
    }
  }

  lemma AcceptShrinks(s: State, slot: nat, env: Env)
    ensures var r := AcceptTask(s, slot, env); OwnersShrink(s, r) && Stages(s, r)
  {
  }

  lemma AcceptIsCalm(s: State, slot: nat, env: Env)
    ensures var r := AcceptTask(s, slot, env); Calm(s, r) && OwnersShrink(s, r)
  {
    AcceptShrinks(s, slot, env);
    StagesAreCalm(s, AcceptTask(s, slot, env));
  }

  lemma JoinIsCalm(s: State, a: Agent, t: Ticket, genuine: bool, env: Env)
    ensures var r := Join(s, a, t, genuine, env); Calm(s, r) && OwnersShrink(s, r)
  {
    StillLive(s, Join(s, a, t, genuine, env));
  }

  /** Live calls of unchanged dispatches stay live. */
  lemma StillLive(s: State, r: State)
    requires r.dispatches == s.dispatches
    ensures forall t :: TicketLive(s, t) ==> TicketLive(r, t)
  {
  }

  /** A command that writes no table a budget or a scope is read from. */
  lemma SteadyIsCalm(s: State, r: State)
    requires r.contract == s.contract && r.work == s.work && r.dispatches == s.dispatches && r.rejected == s.rejected &&
             r.retried == s.retried && r.recoveries == s.recoveries
    ensures Calm(s, r) && OwnersShrink(s, r)
  {
    StillLive(s, r);
  }

  lemma RetryIsCalm(s: State, slot: nat, env: Env)
    ensures var r := Retry(s, slot, env); Calm(s, r) && OwnersShrink(s, r)
  {
    var r := Retry(s, slot, env);
    RetryIsLater(s, slot, env);
    assert Refused(r) <= Refused(s);
    StillLive(s, r);
  }

  lemma LostAnswerIsCalm(s: State, i: nat)
    requires Answerable(s, i)
    ensures var r := s.(dispatches := SetCall(s.dispatches, i, Unknown)); Calm(s, r) && OwnersShrink(s, r)
  {
    var r := s.(dispatches := SetCall(s.dispatches, i, Unknown));
    forall t | TicketLive(s, t) ensures TicketLive(r, t) {
      var k :| 0 <= k < |s.dispatches| && s.dispatches[k].payload.ticket == t && Outstanding(s.dispatches[k].state);
      assert r.dispatches[k].payload.ticket == t && Outstanding(r.dispatches[k].state);
    }
  }

  lemma AcknowledgeIsCalm(s: State, i: nat, a: Agent)
    requires Inv(s) && Answerable(s, i)
    ensures var r := Acknowledged(s, i, a); Calm(s, r) && OwnersShrink(s, r)
  {
    var r := Acknowledged(s, i, a);
    forall t | TicketLive(s, t) ensures TicketLive(r, t) {
      var k :| 0 <= k < |s.dispatches| && s.dispatches[k].payload.ticket == t && Outstanding(s.dispatches[k].state);
      assert r.dispatches[k].payload.ticket == t && Outstanding(r.dispatches[k].state);
    }
  }

  lemma PostDispatchIsCalm(s: State, call: CallId, answer: Answer)
    requires Inv(s)
    ensures var r := PostDispatch(s, call, answer); Calm(s, r) && OwnersShrink(s, r)
  {
    var i := FindCall(s.dispatches, call);
    var r := PostDispatch(s, call, answer);
    AnswerCases(s, call, answer);
    if r == s {
    } else if r == s.(dispatches := SetCall(s.dispatches, i.value, Unknown)) {
      LostAnswerIsCalm(s, i.value);
    } else {
      var a :| Seats(s, i.value, a) && r == Acknowledged(s, i.value, a);
      AcknowledgeIsCalm(s, i.value, a);
    }
  }

  // ---------- rounds and reservations ----------

  ghost predicate Stages(s: State, r: State) {
    r.dispatches == s.dispatches && r.rejected == s.rejected && r.retried == s.retried &&
    r.recoveries == s.recoveries &&
    forall t | t in s.work && s.work[t].stage != Pending && s.work[t].stage != Reserved ::
      t in r.work && r.work[t].stage != Pending && r.work[t].stage != Reserved
  }

  lemma StagesAreCalm(s: State, r: State)
    requires Stages(s, r)
    ensures Calm(s, r)
  {
    StillLive(s, r);
  }

  /** A round in which every row still waits. */
  lemma FreshRoundIsExclusive(s: State, c: Contract, tasks: seq<Task>)
    requires |tasks| == SLOTS
    ensures Exclusive(NewRound(s, c, tasks))
  {
    var r := NewRound(s, c, tasks);
    forall i | 0 <= i < SLOTS && Now(r, i) in r.work ensures r.work[Now(r, i)].stage == Pending {}
  }

  lemma StartIsOrderly(s: State, revise: bool, terms: Terms, free: bool, env: Env)
    requires Shape(s) && Exclusive(s)
    ensures var r := Start(s, revise, terms, free, env); Calm(s, r) && Exclusive(r)
  {
    var r := Start(s, revise, terms, free, env);
    if MayStart(s, revise, terms, free, env) {
      FreshRoundIsExclusive(Closed(s), Agreed(terms), LensTasks(PlanLenses, terms.evidencePaths));
    }
    StagesAreCalm(s, r);
  }

  lemma AcceptRoundStages(s: State, repairing: bool, c: Contract, tasks: seq<Task>)
    requires s.contract.Some? && Shape(s) && |tasks| == SLOTS
    ensures Stages(s, NewRound(AcceptRound(s, repairing), c, tasks))
  {
  }

  lemma ExecuteIsOrderly(s: State, repair: bool, decision: string, tasks: seq<Task>, env: Env)
    requires Shape(s) && Exclusive(s)
    ensures var r := Execute(s, repair, decision, tasks, env); Calm(s, r) && Exclusive(r)
  {
    var r := Execute(s, repair, decision, tasks, env);
    if MayExecute(s, repair, decision, tasks, env) {
      var c := Executing(s.contract.value, decision);
      FreshRoundIsExclusive(AcceptRound(s, repair), c, tasks);
      AcceptRoundStages(s, repair, c, tasks);
      assert r == NewRound(AcceptRound(s, repair), c, tasks);
    }
    StagesAreCalm(s, r);
  }

  lemma ReviewIsOrderly(s: State, decision: string, order: seq<Paths.Path>, env: Env)
    requires Shape(s) && Exclusive(s)
    ensures var r := Review(s, decision, order, env); Calm(s, r) && Exclusive(r)
  {
    var r := Review(s, decision, order, env);
    if MayReview(s, decision, order, env) {
      FreshRoundIsExclusive(AcceptRound(s, false), r.contract.value, LensTasks(ReviewLenses, order));
      AcceptRoundStages(s, false, r.contract.value, LensTasks(ReviewLenses, order));
    }
    StagesAreCalm(s, r);
  }

  lemma FinishIsOrderly(s: State, decision: string, env: Env)
    requires Exclusive(s)
    ensures var r := Finish(s, decision, env); Calm(s, r) && Exclusive(r)
  {
    var r := Finish(s, decision, env);
    if MayFinish(s, decision, env) {
      forall i | 0 <= i < SLOTS && Now(r, i) in r.work ensures !Occupies(r.work[Now(r, i)].stage) {}
    }
    StagesAreCalm(s, r);
  }

  lemma {:induction false} ReserveKeepsExclusive(s: State, slot: nat, met: set<nat>)
    requires s.contract.Some? && Exclusive(s)
    ensures Exclusive(ReserveFrom(s, slot, met)) && Stages(s, ReserveFrom(s, slot, met))
    decreases SLOTS - slot
  {
    if slot < SLOTS {
      ReserveSlotExclusive(s, slot, met);
      ReserveKeepsExclusive(ReserveSlot(s, slot, met), slot + 1, met);
    }
  }

  lemma NewlyReserved(s: State, slot: nat, met: set<nat>, i: nat)
    requires s.contract.Some? && slot < SLOTS && i < SLOTS && Now(s, i) in s.work
    requires Occupies(ReserveSlot(s, slot, met).work[Now(s, i)].stage) && !Occupies(s.work[Now(s, i)].stage)
    ensures i == slot && !(s.work[Now(s, slot)].task.kind == Implement && Contended(s, s.work[Now(s, slot)].task))
  {
  }

  lemma OthersAsBefore(s: State, slot: nat, met: set<nat>, i: nat)
    requires s.contract.Some? && i != slot && Now(s, i) in s.work
    ensures var r := ReserveSlot(s, slot, met); Now(s, i) in r.work && r.work[Now(s, i)] == s.work[Now(s, i)]
  {
  }

  lemma ReservedPair(s: State, slot: nat, met: set<nat>, i: nat, j: nat)
    requires s.contract.Some? && Exclusive(s) && slot < SLOTS && i < j < SLOTS && Now(s, i) in s.work &&
             Now(s, j) in s.work
    requires var r := ReserveSlot(s, slot, met); Occupies(r.work[Now(s, i)].stage) && Occupies(r.work[Now(s, j)].stage)
    ensures !Clash(s.work[Now(s, i)].task, s.work[Now(s, j)].task)
  {
    if !Occupies(s.work[Now(s, i)].stage) {
      NewlyReserved(s, slot, met, i);
      OthersAsBefore(s, slot, met, j);
      NotContended(s, slot, j);
    } else if !Occupies(s.work[Now(s, j)].stage) {
      NewlyReserved(s, slot, met, j);
      OthersAsBefore(s, slot, met, i);
      NotContended(s, slot, i);
    }
  }

  lemma ReserveSlotTasks(s: State, slot: nat, met: set<nat>)
    requires s.contract.Some?
    ensures var r := ReserveSlot(s, slot, met);
            r.work.Keys == s.work.Keys && forall t | t in s.work :: r.work[t].task == s.work[t].task
  {
  }

  /** A row is reserved only if its task clashes with no writer of the round. */
  lemma ReserveSlotExclusive(s: State, slot: nat, met: set<nat>)
    requires s.contract.Some? && Exclusive(s) && slot < SLOTS
    ensures Exclusive(ReserveSlot(s, slot, met))
  {
    var r := ReserveSlot(s, slot, met);
    ReserveSlotTasks(s, slot, met);
    forall i, j | 0 <= i < j < SLOTS && Now(r, i) in r.work && Now(r, j) in r.work &&
                  Occupies(r.work[Now(r, i)].stage) && Occupies(r.work[Now(r, j)].stage)
      ensures !Clash(r.work[Now(r, i)].task, r.work[Now(r, j)].task)
    {
      assert Now(r, i) == Now(s, i) && Now(r, j) == Now(s, j);
      ReservedPair(s, slot, met, i, j);
    }
  }

  lemma NotContended(s: State, slot: nat, i: nat)
    requires s.contract.Some? && slot < SLOTS && i < SLOTS && Now(s, slot) in s.work && Now(s, i) in s.work
    requires Occupies(s.work[Now(s, i)].stage)
    requires !(s.work[Now(s, slot)].task.kind == Implement && Contended(s, s.work[Now(s, slot)].task))
    ensures !Clash(s.work[Now(s, slot)].task, s.work[Now(s, i)].task) &&
            !Clash(s.work[Now(s, i)].task, s.work[Now(s, slot)].task)
  {
    ClashSymmetric(s.work[Now(s, slot)].task, s.work[Now(s, i)].task);
  }

  lemma PreparedShrinks(s: State, failing: set<nat>)
    requires s.contract.Some?
    ensures OwnersShrink(s, Prepared(s, failing)) && Stages(s, Prepared(s, failing))
  {
  }

  lemma StagesTwice(s: State, m: State, r: State)
    requires Stages(s, m) && Stages(m, r)
    ensures Stages(s, r)
  {
  }

  lemma NextIsOrderly(s: State, failing: set<nat>, env: Env)
    requires Exclusive(s)
    ensures var r := Next(s, failing, env); Calm(s, r) && Exclusive(r)
  {
    if Ready(s, env) && s.contract.value.phase != COMPLETE {
      var reserved := ReserveFrom(s, 0, MetSlots(s));
      var r := Prepared(reserved, failing);
      ReserveKeepsExclusive(s, 0, MetSlots(s));
      PreparedShrinks(reserved, failing);
      OwnersShrinkKeeps(reserved, r);
      StagesTwice(s, reserved, r);
      StagesAreCalm(s, r);
    } else {
      StagesAreCalm(s, s);
    }
  }

  // ---------- commands that authorise or refuse ----------

  lemma OneMoreCall(ds: seq<Dispatch>, d: Dispatch, t: Ticket)
    ensures CallsOf(ds + [d], t) == CallsOf(ds, t) + if d.payload.ticket == t then {d.call} else {}
  {
    var es := ds + [d];
    forall c | c in CallsOf(ds, t) ensures c in CallsOf(es, t) {
      var i :| 0 <= i < |ds| && ds[i].payload.ticket == t && ds[i].call == c;
      assert es[i].call == c;
    }
    assert es[|ds|] == d;
  }

  lemma DispatchedRows(s: State, call: CallId, p: Payload, env: Env)
    requires MayDispatch(s, p, env)
    ensures var r := Dispatched(s, call, p);
            && r.dispatches == s.dispatches + [Dispatch(call, p, Unacknowledged)] && Refused(r) == Refused(s)
            && (forall t | t != p.ticket ::
                  Recoveries(r, t) == Recoveries(s, t) && (t in s.work ==> t in r.work && r.work[t] == s.work[t]))
            && !TicketLive(s, p.ticket)
            && (if s.work[p.ticket].stage == Reserved then Recoveries(r, p.ticket) == Recoveries(s, p.ticket)
                else Recoveries(r, p.ticket) == Recoveries(s, p.ticket) + 1 <= MAX_RECOVERIES)
  {
  }

  lemma DispatchedTicketWithinBudget(s: State, call: CallId, p: Payload, env: Env)
    requires WithinBudget(s, p.ticket) && MayDispatch(s, p, env)
    ensures WithinBudget(Dispatched(s, call, p), p.ticket)
  {
    var r := Dispatched(s, call, p);
    var d := Dispatch(call, p, Unacknowledged);
    DispatchedRows(s, call, p, env);
    OneMoreCall(s.dispatches, d, p.ticket);
    assert r.dispatches[|s.dispatches|] == d && TicketLive(r, p.ticket);
    CountWithOneMore(CallsOf(s.dispatches, p.ticket), Refused(s), call);
  }

  lemma UndispatchedTicketWithinBudget(s: State, call: CallId, p: Payload, env: Env, t: Ticket)
    requires WithinBudget(s, t) && t != p.ticket && MayDispatch(s, p, env)
    ensures WithinBudget(Dispatched(s, call, p), t)
  {
    DispatchedRows(s, call, p, env);
    OneMoreCall(s.dispatches, Dispatch(call, p, Unacknowledged), t);
    if Spent(s, t) {
      OtherTicketSpent(s, Dispatched(s, call, p), t);
    }
  }

  lemma DispatchWithinBudget(s: State, call: CallId, p: Payload, env: Env)
    requires Budget(s) && MayDispatch(s, p, env)
    ensures Budget(Dispatched(s, call, p))
  {
    DispatchedRows(s, call, p, env);
    StaysOver(s, Dispatched(s, call, p));
    forall t ensures WithinBudget(Dispatched(s, call, p), t) {
      assert WithinBudget(s, t);
      if t == p.ticket {
        DispatchedTicketWithinBudget(s, call, p, env);
      } else {
        UndispatchedTicketWithinBudget(s, call, p, env, t);
      }
    }
  }

  lemma CountWithOneMore(calls: set<CallId>, refused: set<CallId>, call: CallId)
    ensures |calls + {call} - refused| <= |calls - refused| + 1
  {
    SubsetCount(calls + {call} - refused, (calls - refused) + {call});
  }

  lemma OtherTicketSpent(s: State, r: State, t: Ticket)
    requires s.dispatches <= r.dispatches && Spent(s, t) &&
             (t in s.work ==> t in r.work && r.work[t].stage == s.work[t].stage)
    ensures Spent(r, t)
  {
    if TicketLive(s, t) {
      var i :| 0 <= i < |s.dispatches| && s.dispatches[i].payload.ticket == t && Outstanding(s.dispatches[i].state);
      assert r.dispatches[i] == s.dispatches[i];
    }
  }

  lemma DispatchShrinksOwners(s: State, call: CallId, p: Payload, env: Env)
    requires MayDispatch(s, p, env)
    ensures OwnersShrink(s, Dispatched(s, call, p))
  {
  }

  /** A refusal of a ticket none is standing against. */
  ghost predicate RefusesNew(s: State, r: State, i: nat) {
    Refuses(s, r, i) && s.dispatches[i].payload.ticket !in s.rejected
  }

  lemma NewRefusal(s: State, call: CallId)
    requires RefusedIsIdle(s) && Refuse(s, call) != s
    ensures var i := FindCall(s.dispatches, call);
            i.Some? && RefusesNew(s, Refuse(s, call), i.value)
  {
    RefuseRefuses(s, call);
  }

  lemma RefusedGrows(s: State, r: State, i: nat)
    requires RefusesNew(s, r, i)
    ensures Refused(r) == Refused(s) + {s.dispatches[i].call}
  {
    var t := s.dispatches[i].payload.ticket;
    assert t in r.rejected && r.rejected[t] == s.dispatches[i].call;
    assert forall u | u in s.rejected :: u in r.rejected && r.rejected[u] == s.rejected[u];
  }

  lemma RefuseStaysOver(s: State, r: State, i: nat)
    requires RefusesNew(s, r, i) && RefusedIsOver(s)
    ensures RefusedIsOver(r)
  {
    RefusedGrows(s, r, i);
    assert r.dispatches[i].call == s.dispatches[i].call && !Outstanding(r.dispatches[i].state);
    forall c | c in Refused(s) ensures CallOver(r.dispatches, c) {
      var k :| 0 <= k < |s.dispatches| && s.dispatches[k].call == c && !Outstanding(s.dispatches[k].state);
      assert r.dispatches[k] == s.dispatches[k];
    }
  }

  lemma LiveIsNotRefused(s: State, i: nat)
    requires UniqueCalls(s.dispatches) && RefusedIsOver(s) && i < |s.dispatches| && Outstanding(s.dispatches[i].state)
    ensures s.dispatches[i].call !in Refused(s)
  {
  }

  lemma OneCallFewer(calls: set<CallId>, refused: set<CallId>, call: CallId)
    requires call in calls && call !in refused
    ensures |calls - (refused + {call})| == |calls - refused| - 1
  {
    assert calls - refused == (calls - (refused + {call})) + {call};
  }

  lemma RefusedTicketCount(s: State, r: State, i: nat)
    requires UniqueCalls(s.dispatches) && RefusedIsOver(s) && RefusesNew(s, r, i)
    ensures var t := s.dispatches[i].payload.ticket;
            |CallsOf(r.dispatches, t) - Refused(r)| == |CallsOf(s.dispatches, t) - Refused(s)| - 1
  {
    var call, t := s.dispatches[i].call, s.dispatches[i].payload.ticket;
    assert call in CallsOf(s.dispatches, t);
    RefusedGrows(s, r, i);
    LiveIsNotRefused(s, i);
    SameCalls(s.dispatches, r.dispatches, t);
    OneCallFewer(CallsOf(s.dispatches, t), Refused(s), call);
  }

  lemma RefusedTicketWithinBudget(s: State, r: State, i: nat)
    requires UniqueCalls(s.dispatches) && RefusedIsOver(s) && RefusesNew(s, r, i) &&
             WithinBudget(s, s.dispatches[i].payload.ticket)
    ensures WithinBudget(r, s.dispatches[i].payload.ticket)
  {
    RefusedTicketCount(s, r, i);
  }

  lemma OtherTicketWithinBudget(s: State, r: State, i: nat, t: Ticket)
    requires WithinBudget(s, t) && RefusesNew(s, r, i) && t != s.dispatches[i].payload.ticket
    ensures WithinBudget(r, t)
  {
    RefusedGrows(s, r, i);
    SameCalls(s.dispatches, r.dispatches, t);
    SubsetCount(CallsOf(s.dispatches, t) - Refused(r), CallsOf(s.dispatches, t) - Refused(s));
    if TicketLive(s, t) {
      var k :| 0 <= k < |s.dispatches| && s.dispatches[k].payload.ticket == t && Outstanding(s.dispatches[k].state);
      assert r.dispatches[k] == s.dispatches[k];
    }
  }

  lemma RefuseWithinBudget(s: State, r: State, i: nat)
    requires Inv(s) && Budget(s) && RefusesNew(s, r, i)
    ensures Budget(r)
  {
    RefuseStaysOver(s, r, i);
    forall t ensures WithinBudget(r, t) {
      assert WithinBudget(s, t);
      if t == s.dispatches[i].payload.ticket {
        RefusedTicketWithinBudget(s, r, i);
      } else {
        OtherTicketWithinBudget(s, r, i, t);
      }
    }
  }

  // ---------- runs ----------

  ghost predicate Bounded(s: State) {
    Inv(s) && Budget(s) && Exclusive(s)
  }

  lemma CalmCommandBounded(s: State, r: State)
    requires Budget(s) && Exclusive(s) && Calm(s, r) && OwnersShrink(s, r)
    ensures Budget(r) && Exclusive(r)
  {
    CalmKeepsBudget(s, r);
    OwnersShrinkKeeps(s, r);
  }

  lemma DispatchBounded(s: State, call: CallId, p: Payload, env: Env)
    requires Bounded(s)
    ensures Budget(PreDispatch(s, call, p, env)) && Exclusive(PreDispatch(s, call, p, env))
  {
    if FindCall(s.dispatches, call).None? && MayDispatch(s, p, env) {
      DispatchWithinBudget(s, call, p, env);
      DispatchShrinksOwners(s, call, p, env);
      OwnersShrinkKeeps(s, Dispatched(s, call, p));
    }
  }

  lemma RefuseBounded(s: State, call: CallId)
    requires Bounded(s)
    ensures Budget(Refuse(s, call)) && Exclusive(Refuse(s, call))
  {
    if Refuse(s, call) != s {
      NewRefusal(s, call);
      RefuseWithinBudget(s, Refuse(s, call), FindCall(s.dispatches, call).value);
      OwnersShrinkKeeps(s, Refuse(s, call));
    }
  }

  lemma AnswerBounded(s: State, call: CallId, answer: Answer)
    requires Bounded(s)
    ensures Budget(PostDispatch(s, call, answer)) && Exclusive(PostDispatch(s, call, answer))
  {
    PostDispatchIsCalm(s, call, answer);
    CalmCommandBounded(s, PostDispatch(s, call, answer));
  }

  lemma ReconciledBounded(s: State, call: CallId, receipt: Receipt)
    requires Bounded(s)
    ensures Budget(Reconciled(s, call, receipt)) && Exclusive(Reconciled(s, call, receipt))
  {
    if Heard(receipt).Receipt? {
      RefuseBounded(s, call);
      AnswerBounded(s, call, receipt.decode(Heard(receipt).output).answer);
    }
  }

  lemma HostBounded(s: State, h: HostCommand)
    requires Bounded(s)
    ensures Budget(ApplyHost(s, h)) && Exclusive(ApplyHost(s, h))
  {
    match h
    case PreCall(call, p, env) => DispatchBounded(s, call, p, env);
    case Reconcile(call, receipt) => ReconciledBounded(s, call, receipt);
    case PostCall(call, answer) => AnswerBounded(s, call, answer);
    case ForeignBinding(a) =>
      SteadyIsCalm(s, BindElsewhere(s, a));
      CalmCommandBounded(s, BindElsewhere(s, a));
    case RetryNative(slot, env) =>
      RetryIsCalm(s, slot, env);
      CalmCommandBounded(s, Retry(s, slot, env));
  }

  lemma WaitBounded(s: State, w: WaitCommand)
    requires Bounded(s)
    ensures Budget(ApplyWait(s, w)) && Exclusive(ApplyWait(s, w))
  {
    match w {
      case PreWaiting(call, targets, env) => SteadyIsCalm(s, PreWait(s, call, targets, env));
      case PostWaiting(call, r) => PostWaitIsCalm(s, call, r);
      case Recover(slot, env) => SteadyIsCalm(s, PrepareRecovery(s, slot, env));
    }
    CalmCommandBounded(s, ApplyWait(s, w));
  }

  lemma WorkerBounded(s: State, k: WorkerCommand)
    requires Bounded(s)
    ensures Budget(ApplyWorker(s, k)) && Exclusive(ApplyWorker(s, k))
  {
    match k {
      case JoinCrew(a, t, genuine, env) => JoinIsCalm(s, a, t, genuine, env);
      case SubmitReport(a, d, env) => SteadyIsCalm(s, Submit(s, a, d, env));
      case Return(a, status) => HandBackIsCalm(s, a, status);
    }
    CalmCommandBounded(s, ApplyWorker(s, k));
  }

  lemma RootBounded(s: State, r: RootCommand)
    requires Bounded(s)
    ensures Budget(ApplyRoot(s, r)) && Exclusive(ApplyRoot(s, r))
  {
    match r {
      case IntegrateTask(slot, env) => IntegrateIsCalm(s, slot, env);
      case AcceptOne(slot, env) => AcceptIsCalm(s, slot, env);
      case Deliver(slots) => SteadyIsCalm(s, ReadReports(s, slots));
    }
    CalmCommandBounded(s, ApplyRoot(s, r));
  }

  lemma RoundBounded(s: State, n: RoundCommand)
    requires Bounded(s)
    ensures Budget(ApplyRound(s, n)) && Exclusive(ApplyRound(s, n))
  {
    match n {
      case StartCrew(revise, terms, free, env) => StartIsOrderly(s, revise, terms, free, env);
      case NextCrew(failing, env) => NextIsOrderly(s, failing, env);
      case ExecuteCrew(repair, decision, tasks, env) => ExecuteIsOrderly(s, repair, decision, tasks, env);
      case ReviewCrew(decision, order, env) => ReviewIsOrderly(s, decision, order, env);
      case CompleteCrew(decision, env) => FinishIsOrderly(s, decision, env);
    }
    CalmKeepsBudget(s, ApplyRound(s, n));
  }

  lemma CommandBounded(s: State, c: Command)
    requires Bounded(s)
    ensures Bounded(Apply(s, c))
  {
    ApplyKeeps(s, c);
    match c
    case AtHost(h) => HostBounded(s, h);
    case AtWait(w) => WaitBounded(s, w);
    case ByWorker(k) => WorkerBounded(s, k);
    case ByRoot(r) => RootBounded(s, r);
    case AtRound(n) => RoundBounded(s, n);
  }

  lemma {:induction false} RunBounded(s: State, cs: seq<Command>)
    requires Bounded(s)
    ensures Bounded(Run(s, cs))
    decreases |cs|
  {
    if cs != [] {
      CommandBounded(s, cs[0]);
      RunBounded(Apply(s, cs[0]), cs[1..]);
    }
  }

  lemma ReachableBounded(foreign: set<Agent>, cs: seq<Command>)
    ensures Bounded(Run(Initial(foreign), cs))
  {
    var s := Initial(foreign);
    InitialInv(foreign);
    forall t ensures WithinBudget(s, t) {
      assert CallsOf(s.dispatches, t) == {};
    }
    RunBounded(s, cs);
  }

  /** Bounded recovery: besides proven refusals a ticket gets its first dispatch and one for each of its recoveries. */
  lemma BoundedRecovery(foreign: set<Agent>, cs: seq<Command>, t: Ticket)
    ensures var s := Run(Initial(foreign), cs); |CallsOf(s.dispatches, t) - Refused(s)| <= 1 + MAX_RECOVERIES
  {
    ReachableBounded(foreign, cs);
    assert WithinBudget(Run(Initial(foreign), cs), t);
  }

  /** At most one dispatch of a ticket is unanswered or running. */
  lemma OneLiveDispatch(foreign: set<Agent>, cs: seq<Command>, i: nat, j: nat)
    ensures var ds := Run(Initial(foreign), cs).dispatches;
            i < j < |ds| && ds[i].payload.ticket == ds[j].payload.ticket ==>
              !(Outstanding(ds[i].state) && Outstanding(ds[j].state))
  {
    ReachableCrew(foreign, cs);
  }

  /** Scopes of writers that are reserved, running or returned never overlap. */
  lemma WritersNeverClash(foreign: set<Agent>, cs: seq<Command>)
    ensures Exclusive(Run(Initial(foreign), cs))
  {
    ReachableBounded(foreign, cs);
  }
}
