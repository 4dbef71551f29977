/** Which rows crew-next takes and which it leaves, and what becomes of those it takes. */
module CrewSchedule {
  import opened Wrappers
  import opened Paths
  import opened Work
  import opened Crew
  import opened CrewInv
  import opened CrewCalls

  // ---------- names ----------

  /** Every row has the name of its slot. */
  ghost predicate Named(s: State) {
    forall t | t in s.work :: t.slot < SLOTS && s.work[t].task.id == SlotName(t.slot)
  }

  lemma SlotNames()
    ensures SlotName(0) == "s1" && SlotName(1) == "s2" && SlotName(2) == "s3"
    ensures SlotName(3) == "s4" && SlotName(4) == "s5" && SlotName(5) == "s6"
    ensures forall i, j | 0 <= i < SLOTS && 0 <= j < SLOTS && SlotName(i) == SlotName(j) :: i == j
  {
    forall i, j | 0 <= i < SLOTS && 0 <= j < SLOTS && SlotName(i) == SlotName(j) ensures i == j {
      assert SlotName(i)[1] == SlotName(j)[1];
    }
  }

  lemma DispatchKeepsTickets(s: State, call: CallId, p: Payload, env: Env)
    ensures PreDispatch(s, call, p, env).work.Keys == s.work.Keys
  {
  }

  lemma UpdateKeepsTickets(work: map<Ticket, Row>, t: Ticket, row: Row)
    requires t in work
    ensures work[t := row].Keys == work.Keys
  {
  }

  lemma AcknowledgedKeepsTickets(s: State, i: nat, a: Agent)
    requires Answerable(s, i)
    ensures Acknowledged(s, i, a).work.Keys == s.work.Keys
  {
    var t := s.dispatches[i].payload.ticket;
    UpdateKeepsTickets(s.work, t, s.work[t].(agent := Some(a), stage := Running));
  }

  lemma AnswerKeepsTickets(s: State, call: CallId, answer: Answer)
    requires Inv(s)
    ensures PostDispatch(s, call, answer).work.Keys == s.work.Keys
  {
    AnswerCases(s, call, answer);
    var i, r := FindCall(s.dispatches, call), PostDispatch(s, call, answer);
    if r != s && r.work != s.work {
      var a :| Seats(s, i.value, a) && r == Acknowledged(s, i.value, a);
      AcknowledgedKeepsTickets(s, i.value, a);
    }
  }

  lemma ReconcileKeepsTickets(s: State, call: CallId, receipt: Receipt)
    requires Inv(s)
    ensures Reconciled(s, call, receipt).work.Keys == s.work.Keys
  {
    if Heard(receipt).Receipt? {
      AnswerKeepsTickets(s, call, receipt.decode(Heard(receipt).output).answer);
    }
  }

  lemma HostKeepsTickets(s: State, h: HostCommand)
    requires Inv(s)
    ensures ApplyHost(s, h).work.Keys == s.work.Keys
  {
    match h
    case PreCall(call, p, env) => DispatchKeepsTickets(s, call, p, env);
    case PostCall(call, answer) => AnswerKeepsTickets(s, call, answer);
    case ForeignBinding(_) =>
    case Reconcile(call, receipt) => ReconcileKeepsTickets(s, call, receipt);
    case RetryNative(_, _) =>
  }

  lemma LandKeepsTickets(s: State, t: Ticket, stage: Stage)
    requires t in s.work
    ensures Land(s, t, stage).work.Keys == s.work.Keys
  {
    UpdateKeepsTickets(s.work, t, Land(s, t, stage).work[t]);
  }

  lemma SeenCases(s: State, call: CallId, w: Wait, a: Agent, status: Native)
    requires a in w.snapshot
    ensures var m := Noted(s, call, w, a, status);
            var t := w.snapshot[a].ticket;
            var r := Observe(s, call, w, a, status);
            r == s || r == m || (t in s.work && (r == Land(m, t, Returned) || r == Land(m, t, Failed)))
  {
  }

  lemma SeenKeepsTickets(s: State, call: CallId, w: Wait, a: Agent, status: Native)
    requires a in w.snapshot
    ensures Observe(s, call, w, a, status).work.Keys == s.work.Keys
  {
    SeenCases(s, call, w, a, status);
    var m, t := Noted(s, call, w, a, status), w.snapshot[a].ticket;
    if t in s.work {
      LandKeepsTickets(m, t, Returned);
      LandKeepsTickets(m, t, Failed);
    }
  }

  lemma StatusKeepsTickets(s: State, call: CallId, w: Wait, lone: bool, key: string, status: Option<Native>)
    ensures ObserveOne(s, call, w, lone, key, status).work.Keys == s.work.Keys
  {
    var a := Resolve(w, lone, key);
    if a.Some? && a.value in w.snapshot && status.Some? {
      SeenKeepsTickets(s, call, w, a.value, status.value);
    }
  }

  lemma {:induction false} ObserveKeepsTickets(s: State, call: CallId, w: Wait, lone: bool,
                                               statuses: seq<(string, Option<Native>)>)
    ensures ObserveAll(s, call, w, lone, statuses).work.Keys == s.work.Keys
    decreases |statuses|
  {
    if statuses != [] {
      StatusKeepsTickets(s, call, w, lone, statuses[0].0, statuses[0].1);
      ObserveKeepsTickets(ObserveOne(s, call, w, lone, statuses[0].0, statuses[0].1), call, w, lone, statuses[1..]);
    }
  }

  lemma WaitKeepsTickets(s: State, w: WaitCommand)
    ensures ApplyWait(s, w).work.Keys == s.work.Keys
  {
    if w.PostWaiting? && w.call in s.waits && w.result.statuses.Some? {
      ObserveKeepsTickets(s, w.call, s.waits[w.call], |w.result.statuses.value| == 1, w.result.statuses.value);
    }
  }

  lemma WorkerKeepsTickets(s: State, k: WorkerCommand)
    ensures ApplyWorker(s, k).work.Keys == s.work.Keys
  {
  }

  lemma RootKeepsTickets(s: State, r: RootCommand)
    ensures ApplyRoot(s, r).work.Keys == s.work.Keys
  {
    match r
    case IntegrateTask(slot, env) => IntegrateKeepsTickets(s, slot, env);
    case AcceptOne(slot, env) => AcceptKeepsTickets(s, slot, env);
    case Deliver(_) =>
  }

  lemma IntegrateKeepsTickets(s: State, slot: nat, env: Env)
    ensures Integrate(s, slot, env).work.Keys == s.work.Keys
  {
  }

  lemma AcceptKeepsTickets(s: State, slot: nat, env: Env)
    ensures AcceptTask(s, slot, env).work.Keys == s.work.Keys
  {
  }

  lemma RoundIsNamed(s: State, c: Contract, tasks: seq<Task>)
    requires |tasks| == SLOTS && forall i | 0 <= i < SLOTS :: tasks[i].id == SlotName(i)
    requires Named(s)
    ensures Named(NewRound(s, c, tasks))
  {
    var rows := FreshRows(s.plans, tasks, SLOTS);
    assert forall t | t in rows :: rows[t].task == tasks[t.slot];
  }

  lemma NamedStays(s: State, r: State)
    requires Named(s) && KeepsRows(s, r) && r.work.Keys == s.work.Keys
    ensures Named(r)
  {
  }

  lemma AcceptedStaysNamed(s: State, repairing: bool)
    requires Named(s) && s.contract.Some?
    ensures Named(AcceptRound(s, repairing))
  {
  }

  lemma StartIsNamed(s: State, revise: bool, terms: Terms, free: bool, env: Env)
    requires Named(s)
    ensures Named(Start(s, revise, terms, free, env))
  {
    if MayStart(s, revise, terms, free, env) {
      ClosedStaysNamed(s);
      RoundIsNamed(Closed(s), Agreed(terms), LensTasks(PlanLenses, terms.evidencePaths));
    }
  }

  lemma ClosedStaysNamed(s: State)
    requires Named(s)
    ensures Named(Closed(s))
  {
  }

  lemma ExecuteIsNamed(s: State, repair: bool, decision: string, tasks: seq<Task>, env: Env)
    requires Named(s)
    ensures Named(Execute(s, repair, decision, tasks, env))
  {
    if MayExecute(s, repair, decision, tasks, env) {
      AcceptedStaysNamed(s, repair);
      RoundIsNamed(AcceptRound(s, repair), Executing(s.contract.value, decision), tasks);
    }
  }

  lemma ReviewIsNamed(s: State, decision: string, order: seq<Path>, env: Env)
    requires Named(s)
    ensures Named(Review(s, decision, order, env))
  {
    if MayReview(s, decision, order, env) {
      var frozen, tasks := Frozen(s.contract.value, decision, env), LensTasks(ReviewLenses, order);
      AcceptedStaysNamed(s, false);
      RoundIsNamed(AcceptRound(s, false), frozen, tasks);
      assert OpenReview(s, decision, order, env).work == NewRound(AcceptRound(s, false), frozen, tasks).work;
    }
  }

  lemma CommandKeepsNames(s: State, c: Command)
    requires Inv(s) && Named(s)
    ensures Named(Apply(s, c))
  {
    CommandIsLater(s, c);
    match c
    case AtHost(h) => HostKeepsTickets(s, h); NamedStays(s, ApplyHost(s, h));
    case AtWait(w) => WaitKeepsTickets(s, w); NamedStays(s, ApplyWait(s, w));
    case ByWorker(k) => WorkerKeepsTickets(s, k); NamedStays(s, ApplyWorker(s, k));
    case ByRoot(r) => RootKeepsTickets(s, r); NamedStays(s, ApplyRoot(s, r));
    case AtRound(n) => RoundKeepsNames(s, n);
  }

  lemma RoundKeepsNames(s: State, n: RoundCommand)
    requires Named(s) && Later(s, ApplyRound(s, n))
    ensures Named(ApplyRound(s, n))
  {
    match n
    case StartCrew(revise, terms, free, env) => StartIsNamed(s, revise, terms, free, env);
    case NextCrew(failing, env) => NextKeepsTasks(s, failing, env); NamedStays(s, Next(s, failing, env));
    case ExecuteCrew(repair, decision, tasks, env) => ExecuteIsNamed(s, repair, decision, tasks, env);
    case ReviewCrew(decision, order, env) => ReviewIsNamed(s, decision, order, env);
    case CompleteCrew(decision, env) => FinishKeepsTickets(s, decision, env); NamedStays(s, Finish(s, decision, env));
  }

  lemma FinishKeepsTickets(s: State, decision: string, env: Env)
    ensures Finish(s, decision, env).work.Keys == s.work.Keys
  {
  }

  lemma {:induction false} RunKeepsNames(s: State, cs: seq<Command>)
    requires Inv(s) && Named(s)
    ensures Named(Run(s, cs))
    decreases |cs|
  {
    if cs != [] {
      CommandKeepsNames(s, cs[0]);
      ApplyKeeps(s, cs[0]);
      RunKeepsNames(Apply(s, cs[0]), cs[1..]);
    }
  }

  /** In every run the rows of a round are s1 to s6. */
  lemma ReachableIsNamed(foreign: set<Agent>, cs: seq<Command>)
    ensures Named(Run(Initial(foreign), cs))
  {
    InitialInv(foreign);
    RunKeepsNames(Initial(foreign), cs);
  }

  // ---------- what is taken ----------

  /** A row of the round has this name and is accepted. */
  ghost predicate IsAccepted(s: State, plan: nat, name: string) {
    exists u :: u in s.work && u.plan == plan && s.work[u].task.id == name && s.work[u].stage == Accepted
  }

  /** Everything the task waits for is accepted. */
  ghost predicate AllAccepted(s: State, plan: nat, t: Task) {
    forall d | d in t.dependsOn :: IsAccepted(s, plan, d)
  }

  ghost predicate Touch(t: Task, u: Task) {
    exists p, q :: p in t.paths && q in u.paths && Overlaps(p, q)
  }

  /** A writer of the round that was taken before, or is taken now, has a path that touches one of the task's. */
  ghost predicate Blocks(s: State, r: State, t: Ticket, u: Ticket) {
    && t in s.work && u in s.work && u in r.work && u.plan == t.plan && u != t
    && s.work[u].task.kind == Implement && r.work[u].stage in {Reserved, Running, Returned}
    && Touch(s.work[t].task, s.work[u].task)
  }

  ghost predicate WriterInTheWay(s: State, r: State, t: Ticket) {
    exists u :: Blocks(s, r, t, u)
  }

  lemma NamesAgree(s: State, t: Task)
    requires s.contract.Some? && Named(s)
    ensures DependenciesMet(s, t) <==> AllAccepted(s, s.contract.value.plan, t)
  {
    var plan := s.contract.value.plan;
    forall d ensures IsAccepted(s, plan, d) <==>
                     exists i :: 0 <= i < SLOTS && SlotName(i) == d && Now(s, i) in s.work &&
                                 s.work[Now(s, i)].stage == Accepted {
      if u :| u in s.work && u.plan == plan && s.work[u].task.id == d && s.work[u].stage == Accepted {
        assert u == Now(s, u.slot);
      }
      if i :| 0 <= i < SLOTS && SlotName(i) == d && Now(s, i) in s.work && s.work[Now(s, i)].stage == Accepted {
        assert s.work[Now(s, i)].task.id == d;
      }
    }
  }

  /** Only pending rows of the round whose dependencies were met are reserved; every other row stays as it is. */
  ghost predicate Took(s: State, r: State, t: Ticket, met: set<nat>)
    requires s.contract.Some?
  {
    && r == s.(work := r.work) && r.work.Keys == s.work.Keys
    && (t in s.work && r.work[t] != s.work[t] ==>
          s.work[t].stage == Pending && t.plan == s.contract.value.plan && t.slot in met &&
          r.work[t] == s.work[t].(stage := Reserved))
  }

  lemma SlotTakes(s: State, slot: nat, met: set<nat>, t: Ticket)
    requires s.contract.Some?
    ensures Took(s, ReserveSlot(s, slot, met), t, met)
  {
    if MayReserve(s, slot, met) {
      UpdateKeepsTickets(s.work, Now(s, slot), Reserve(s.work[Now(s, slot)]));
    }
  }

  lemma TookTwice(s: State, m: State, r: State, t: Ticket, met: set<nat>)
    requires s.contract.Some? && m.contract.Some? && Took(s, m, t, met) && Took(m, r, t, met)
    ensures Took(s, r, t, met)
  {
  }

  lemma {:induction false} ReserveTakes(s: State, slot: nat, met: set<nat>, t: Ticket)
    requires s.contract.Some?
    ensures Took(s, ReserveFrom(s, slot, met), t, met)
    decreases SLOTS - slot
  {
    if slot < SLOTS {
      var m := ReserveSlot(s, slot, met);
      SlotTakes(s, slot, met, t);
      ReserveTakes(m, slot + 1, met, t);
      TookTwice(s, m, ReserveFrom(s, slot, met), t, met);
    }
  }

  /** At its turn a row with met dependencies is reserved, or it writes and a writer is in the way. */
  lemma SlotDecides(s: State, slot: nat, met: set<nat>)
    requires s.contract.Some? && slot < SLOTS && slot in met
    requires Now(s, slot) in s.work && s.work[Now(s, slot)].stage == Pending
    ensures var m, t := ReserveSlot(s, slot, met), Now(s, slot);
            m.work[t].stage == Reserved || (s.work[t].task.kind == Implement && exists u :: InTheWay(s, t, u))
  {
    var t := Now(s, slot);
    if ReserveSlot(s, slot, met).work[t].stage != Reserved {
      var k :| 0 <= k < SLOTS && Now(s, k) in s.work && Occupies(s.work[Now(s, k)].stage) &&
               Clash(s.work[t].task, s.work[Now(s, k)].task);
      var a, b := s.work[t].task, s.work[Now(s, k)].task;
      var i, j :| 0 <= i < |a.paths| && 0 <= j < |b.paths| && Overlaps(a.paths[i], b.paths[j]);
      assert a.paths[i] in a.paths && b.paths[j] in b.paths;
      assert InTheWay(s, t, Now(s, k));
    }
  }

  /** Another writer of the round owns a path that touches the row's. */
  ghost predicate InTheWay(s: State, t: Ticket, u: Ticket) {
    && t in s.work && u in s.work && u.plan == t.plan && u != t && s.work[u].task.kind == Implement
    && s.work[u].stage in {Reserved, Running, Returned} && Touch(s.work[t].task, s.work[u].task)
  }

  lemma InTheWayBlocks(s: State, m: State, r: State, t: Ticket, u: Ticket, met: set<nat>)
    requires s.contract.Some? && m.contract.Some? && Took(s, m, t, met) && Took(s, m, u, met) && Took(m, r, u, met)
    requires t in s.work && InTheWay(m, t, u)
    ensures Blocks(s, r, t, u)
  {
  }

  lemma StillBlocks(s: State, m: State, r: State, t: Ticket, u: Ticket, met: set<nat>)
    requires s.contract.Some? && m.contract.Some? && Took(s, m, t, met) && Took(s, m, u, met) && Blocks(m, r, t, u)
    ensures Blocks(s, r, t, u)
  {
  }

  lemma {:induction false} ReserveTakesAll(s: State, slot: nat, met: set<nat>, i: nat)
    requires s.contract.Some? && slot <= i < SLOTS && i in met
    requires Now(s, i) in s.work && s.work[Now(s, i)].stage == Pending
    ensures var r, t := ReserveFrom(s, slot, met), Now(s, i);
            && t in r.work
            && (r.work[t].stage == Reserved || (s.work[t].task.kind == Implement && WriterInTheWay(s, r, t)))
    decreases SLOTS - slot
  {
    var m := ReserveSlot(s, slot, met);
    var r := ReserveFrom(s, slot, met);
    var t := Now(s, i);
    SlotTakes(s, slot, met, t);
    ReserveTakes(m, slot + 1, met, t);
    if slot == i {
      SlotDecides(s, slot, met);
      if m.work[t].stage != Reserved {
        var u :| InTheWay(s, t, u);
        SlotTakes(s, slot, met, u);
        ReserveTakes(m, slot + 1, met, u);
        TookTwice(s, m, r, u, met);
        assert Took(s, s, t, met) && Took(s, s, u, met);
        InTheWayBlocks(s, s, r, t, u, met);
      }
    } else {
      assert Now(m, i) == t && m.work[t] == s.work[t];
      ReserveTakesAll(m, slot + 1, met, i);
      if r.work[t].stage != Reserved {
        var u :| Blocks(m, r, t, u);
        SlotTakes(s, slot, met, u);
        StillBlocks(s, m, r, t, u, met);
      }
    }
  }

  // ---------- what becomes of it ----------

  /** A reserved writer of the round has its checkout; where none could be made it proposes instead, as an
      investigation. Nothing else about a row changes. */
  ghost predicate Readied(m: State, r: State, t: Ticket, failing: set<nat>)
    requires m.contract.Some?
  {
    && t in m.work && t in r.work
    && if t.plan == m.contract.value.plan && t.slot < SLOTS && m.work[t].stage == Reserved &&
          m.work[t].task.kind == Implement && !m.work[t].workspace
       then r.work[t] == (if t.slot in failing then m.work[t].(task := m.work[t].task.(kind := Investigate))
                          else m.work[t].(workspace := true))
       else r.work[t] == m.work[t]
  }

  lemma PreparedReadies(m: State, failing: set<nat>, t: Ticket)
    requires m.contract.Some? && t in m.work
    ensures Readied(m, Prepared(m, failing), t, failing)
  {
  }

  lemma NextIsPrepared(s: State, failing: set<nat>, env: Env)
    requires s.contract.Some? && env.current && s.contract.value.phase != COMPLETE
    ensures var m := ReserveFrom(s, 0, MetSlots(s));
            m.contract == s.contract && ApplyRound(s, NextCrew(failing, env)) == Prepared(m, failing)
  {
  }

  lemma MetIsAccepted(s: State, i: nat)
    requires s.contract.Some? && Named(s) && i < SLOTS && Now(s, i) in s.work
    ensures i in MetSlots(s) <==> AllAccepted(s, s.contract.value.plan, s.work[Now(s, i)].task)
  {
    NamesAgree(s, s.work[Now(s, i)].task);
  }

  /** A row leaves Pending by crew-next only if everything it waits for was accepted before. */
  lemma TakenWasReady(s: State, failing: set<nat>, env: Env, t: Ticket)
    requires Named(s) && s.contract.Some? && t in s.work && s.work[t].stage == Pending
    ensures var r := ApplyRound(s, NextCrew(failing, env));
            && t in r.work
            && (r.work[t].stage != Pending ==>
                  && t.plan == s.contract.value.plan && AllAccepted(s, t.plan, s.work[t].task)
                  && r.work[t].stage == Reserved)
  {
    if env.current && s.contract.value.phase != COMPLETE {
      var m := ReserveFrom(s, 0, MetSlots(s));
      NextIsPrepared(s, failing, env);
      ReserveTakes(s, 0, MetSlots(s), t);
      PreparedReadies(m, failing, t);
      if m.work[t] != s.work[t] {
        assert t == Now(s, t.slot);
        MetIsAccepted(s, t.slot);
      }
    }
  }

  /** And a pending row of which everything is accepted is taken, unless it writes where another writer of the round
      works. */
  lemma ReadyIsTaken(s: State, failing: set<nat>, env: Env, t: Ticket)
    requires Named(s) && s.contract.Some? && env.current && s.contract.value.phase != COMPLETE
    requires t in s.work && t.plan == s.contract.value.plan && s.work[t].stage == Pending
    requires AllAccepted(s, t.plan, s.work[t].task)
    ensures var r := ApplyRound(s, NextCrew(failing, env));
            && t in r.work
            && (r.work[t].stage == Reserved || (s.work[t].task.kind == Implement && WriterInTheWay(s, r, t)))
  {
    var m, r := ReserveFrom(s, 0, MetSlots(s)), ApplyRound(s, NextCrew(failing, env));
    assert t == Now(s, t.slot);
    MetIsAccepted(s, t.slot);
    ReserveTakesAll(s, 0, MetSlots(s), t.slot);
    NextIsPrepared(s, failing, env);
    PreparedReadies(m, failing, t);
    if m.work[t].stage != Reserved {
      var u :| Blocks(s, m, t, u);
      PreparedReadies(m, failing, u);
      assert Blocks(s, r, t, u);
    }
  }

  /** Rows that were taken earlier or are over are only readied; so is what is taken now. */
  lemma NextReadies(s: State, failing: set<nat>, env: Env, t: Ticket)
    requires s.contract.Some? && env.current && s.contract.value.phase != COMPLETE && t in s.work
    ensures var m := s.(work := s.work[t := s.work[t].(stage := Reserved)]);
            var r := ApplyRound(s, NextCrew(failing, env));
            Readied(s, r, t, failing) || (s.work[t].stage == Pending && Readied(m, r, t, failing))
  {
    var m := ReserveFrom(s, 0, MetSlots(s));
    NextIsPrepared(s, failing, env);
    ReserveTakes(s, 0, MetSlots(s), t);
    PreparedReadies(m, failing, t);
  }

  /** In a round that is not open to it, crew-next does nothing. */
  lemma NextIsRefused(s: State, failing: set<nat>, env: Env)
    requires s.contract.None? || !env.current || s.contract.value.phase == COMPLETE
    ensures ApplyRound(s, NextCrew(failing, env)) == s
  {
  }

  /** What crew-next owes to every pending row of the round: it leaves Pending only if all it waits for was accepted,
      and if all of it was, it does, unless it writes where another writer works. */
  ghost predicate TakesTheReady(s: State, r: State, env: Env) {
    s.contract.Some? ==> forall t | t in s.work && s.work[t].stage == Pending :: TakenIfReady(s, r, env, t)
  }

  ghost predicate TakenIfReady(s: State, r: State, env: Env, t: Ticket)
    requires s.contract.Some? && t in s.work
  {
    var ready := t.plan == s.contract.value.plan && AllAccepted(s, t.plan, s.work[t].task);
    && t in r.work && (r.work[t].stage == Pending || (ready && r.work[t].stage == Reserved))
    && (ready && env.current && s.contract.value.phase != COMPLETE ==>
          r.work[t].stage == Reserved || (s.work[t].task.kind == Implement && WriterInTheWay(s, r, t)))
  }

  lemma NextTakesTheReady(s: State, failing: set<nat>, env: Env)
    requires Named(s)
    ensures TakesTheReady(s, Next(s, failing, env), env)
  {
    if s.contract.Some? {
      forall t | t in s.work && s.work[t].stage == Pending ensures TakenIfReady(s, Next(s, failing, env), env, t) {
        RowIsTakenIfReady(s, failing, env, t);
      }
    }
  }

  lemma RowIsTakenIfReady(s: State, failing: set<nat>, env: Env, t: Ticket)
    requires Named(s) && s.contract.Some? && t in s.work && s.work[t].stage == Pending
    ensures TakenIfReady(s, Next(s, failing, env), env, t)
  {
    TakenWasReady(s, failing, env, t);
    if t.plan == s.contract.value.plan && AllAccepted(s, t.plan, s.work[t].task) && env.current &&
       s.contract.value.phase != COMPLETE {
      ReadyIsTaken(s, failing, env, t);
    }
  }
}
