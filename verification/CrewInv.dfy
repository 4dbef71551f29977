/** What every command of the fixed crew keeps: who is bound, what was called, and what may be called next. */
module CrewInv {
  import opened Wrappers
  import Paths
  import opened Work
  import opened Crew

  /** Tables refer to each other: six slots, rows of issued plans, dispatches of known rows. */
  ghost predicate Shape(s: State) {
    && |s.members| == SLOTS
    && (s.contract.Some? ==> s.contract.value.plan < s.plans)
    && (forall t | t in s.work :: t.slot < SLOTS && t.plan < s.plans)
    && (forall i | 0 <= i < |s.dispatches| :: s.dispatches[i].payload.ticket in s.work)
  }

  /** A native agent sits in one slot of one root. */
  ghost predicate Roster(s: State) {
    && (forall k | 0 <= k < |s.members| && s.members[k].agent.Some? :: s.members[k].agent.value !in s.foreign)
    && (forall k, l | 0 <= k < l < |s.members| && s.members[k].agent.Some? :: s.members[k].agent != s.members[l].agent)
  }

  /** A row carries only the agent its slot is bound to. */
  ghost predicate Carried(s: State) {
    forall t | t in s.work && s.work[t].agent.Some? ::
      t.slot < |s.members| && s.members[t.slot].agent == s.work[t].agent
  }

  /** A worker joined only tickets of the slot it is bound to. */
  ghost predicate Joined(s: State) {
    forall a | a in s.metas ::
      s.metas[a].ticket.slot < |s.members| && s.members[s.metas[a].ticket.slot].agent == Some(a)
  }

  ghost predicate UniqueCalls(ds: seq<Dispatch>) {
    forall i, j | 0 <= i < j < |ds| :: ds[i].call != ds[j].call
  }

  /** At most one dispatch of a ticket is unanswered or running. */
  ghost predicate SingleLive(ds: seq<Dispatch>) {
    forall i, j | 0 <= i < j < |ds| && ds[i].payload.ticket == ds[j].payload.ticket ::
      !(Outstanding(ds[i].state) && Outstanding(ds[j].state))
  }

  /** Native work goes on only for a row that is reserved or running. */
  ghost predicate LiveIsActive(s: State) {
    forall i | 0 <= i < |s.dispatches| && Outstanding(s.dispatches[i].state) ::
      s.dispatches[i].payload.ticket in s.work && Active(s.work[s.dispatches[i].payload.ticket].stage)
  }

  /** A refusal that still blocks its ticket is its last word. */
  ghost predicate RefusedIsIdle(s: State) {
    forall i | 0 <= i < |s.dispatches| && s.dispatches[i].payload.ticket in s.rejected ::
      !Outstanding(s.dispatches[i].state)
  }

  ghost predicate SpawnOf(d: Dispatch, slot: nat) {
    d.payload.kind == Spawn && d.payload.ticket.slot == slot
  }

  /** A spawn of an unbound slot that was not proven refused and retried still holds the slot: its row is reserved in
      the current round, and it is unanswered or its refusal blocks the ticket. */
  ghost predicate Holding(s: State, i: nat)
    requires i < |s.dispatches|
  {
    var d := s.dispatches[i];
    var t := d.payload.ticket;
    && s.contract.Some? && t.plan == s.contract.value.plan && t in s.work && s.work[t].stage == Reserved
    && if t in s.rejected then s.rejected[t] == d.call else Outstanding(d.state)
  }

  /** The dispatch spawned a slot that is still unbound. */
  ghost predicate SpawnOfUnbound(s: State, i: nat)
    requires i < |s.dispatches|
  {
    var p := s.dispatches[i].payload;
    p.kind == Spawn && p.ticket.slot < |s.members| && s.members[p.ticket.slot].agent.None?
  }

  ghost predicate Committed(s: State) {
    forall i | 0 <= i < |s.dispatches| && SpawnOfUnbound(s, i) && s.dispatches[i].call !in s.retried :: Holding(s, i)
  }

  /** Only a refused and retried spawn is followed by another spawn of its slot. */
  ghost predicate OneSpawn(s: State) {
    forall i, j | 0 <= i < j < |s.dispatches| &&
                  s.dispatches[i].payload.kind == s.dispatches[j].payload.kind == Spawn &&
                  s.dispatches[i].payload.ticket.slot == s.dispatches[j].payload.ticket.slot ::
      s.dispatches[i].call in s.retried
  }

  ghost predicate Inv(s: State) {
    Shape(s) && Roster(s) && Carried(s) && Joined(s) && UniqueCalls(s.dispatches) && SingleLive(s.dispatches) &&
    LiveIsActive(s) && RefusedIsIdle(s) && Committed(s) && OneSpawn(s)
  }

  lemma InitialInv(foreign: set<Agent>)
    ensures Inv(Initial(foreign))
  {
  }

  // ---------- what a command leaves alone ----------

  ghost predicate SameCore(s: State, r: State) {
    r.contract == s.contract && r.plans == s.plans && r.members == s.members && r.foreign == s.foreign &&
    r.work == s.work &&
    r.dispatches == s.dispatches && r.rejected == s.rejected && r.retried == s.retried && r.metas == s.metas
  }

  lemma SameCoreKeeps(s: State, r: State)
    requires Inv(s) && SameCore(s, r)
    ensures Inv(r)
  {
    forall i | 0 <= i < |r.dispatches| && s.dispatches[i].payload.kind == Spawn && Holding(s, i)
      ensures Holding(r, i) {}
  }

  lemma PreWaitKeeps(s: State, call: CallId, targets: seq<Agent>, env: Env)
    requires Inv(s)
    ensures Inv(PreWait(s, call, targets, env))
  {
    SameCoreKeeps(s, PreWait(s, call, targets, env));
  }

  lemma RecoverKeeps(s: State, slot: nat, env: Env)
    requires Inv(s)
    ensures Inv(PrepareRecovery(s, slot, env))
  {
    SameCoreKeeps(s, PrepareRecovery(s, slot, env));
  }

  lemma SubmitKeeps(s: State, a: Agent, d: Draft, env: Env)
    requires Inv(s)
    ensures Inv(Submit(s, a, d, env))
  {
    SameCoreKeeps(s, Submit(s, a, d, env));
  }

  lemma DeliverKeeps(s: State, slots: set<nat>)
    requires Inv(s)
    ensures Inv(ReadReports(s, slots))
  {
    SameCoreKeeps(s, ReadReports(s, slots));
  }

  // ---------- dispatching ----------

  /** A dispatch is added for a row without live work, sent to the bound agent or spawned for an unbound slot. */
  ghost predicate Adds(s: State, r: State, d: Dispatch) {
    var t := d.payload.ticket;
    && t in s.work && t.slot < |s.members| && s.contract.Some? && t.plan == s.contract.value.plan
    && d.state == Unacknowledged && t !in s.rejected && !TicketLive(s, t)
    && (forall i | 0 <= i < |s.dispatches| :: s.dispatches[i].call != d.call)
    && d.payload.kind == (if s.members[t.slot].agent.Some? then Send else Spawn)
    && t in r.work && r.work[t].stage == Reserved && (s.members[t.slot].agent.None? ==> s.work[t].stage == Reserved)
    && (r.work[t].agent == s.work[t].agent || r.work[t].agent == s.members[t.slot].agent)
    && r.work == s.work[t := r.work[t]]
    && r.dispatches == s.dispatches + [d]
    && r.contract == s.contract && r.plans == s.plans && r.members == s.members && r.foreign == s.foreign &&
       r.rejected == s.rejected && r.retried == s.retried && r.metas == s.metas
  }

  lemma ReservedDispatchAdds(s: State, call: CallId, p: Payload, env: Env)
    requires Shape(s) && FindCall(s.dispatches, call).None? && MayDispatch(s, p, env) &&
             s.work[p.ticket].stage == Reserved
    ensures Adds(s, Dispatched(s, call, p), Dispatch(call, p, Unacknowledged))
  {
    var r := Dispatched(s, call, p);
    assert r.work == s.work[p.ticket := r.work[p.ticket]];
  }

  lemma ReopeningDispatchAdds(s: State, call: CallId, p: Payload, env: Env)
    requires Shape(s) && FindCall(s.dispatches, call).None? && MayDispatch(s, p, env) &&
             s.work[p.ticket].stage != Reserved
    ensures Adds(s, Dispatched(s, call, p), Dispatch(call, p, Unacknowledged))
  {
    var r := Dispatched(s, call, p);
    assert p.kind == Send;
    assert r.work == s.work[p.ticket := r.work[p.ticket]];
  }

  /** The heart of the protocol: a spawn is authorised only when every earlier spawn of the slot was refused and
      retried. */
  lemma NoRivalSpawn(s: State, slot: nat, i: nat)
    requires Inv(s) && slot < SLOTS && s.members[slot].agent.None? && s.contract.Some?
    requires !TicketLive(s, Now(s, slot)) && Now(s, slot) !in s.rejected
    requires i < |s.dispatches| && SpawnOf(s.dispatches[i], slot)
    ensures s.dispatches[i].call in s.retried
  {
  }

  lemma AddKeepsTables(s: State, r: State, d: Dispatch)
    requires Inv(s) && Adds(s, r, d)
    ensures Shape(r) && Roster(r) && Carried(r) && Joined(r) && UniqueCalls(r.dispatches) && SingleLive(r.dispatches)
  {
  }

  lemma AddKeepsCalls(s: State, r: State, d: Dispatch)
    requires Inv(s) && Adds(s, r, d)
    ensures LiveIsActive(r) && RefusedIsIdle(r) && OneSpawn(r)
  {
    var n := |s.dispatches|;
    if d.payload.kind == Spawn {
      forall i | 0 <= i < n && SpawnOf(s.dispatches[i], d.payload.ticket.slot)
        ensures s.dispatches[i].call in s.retried
      {
        NoRivalSpawn(s, d.payload.ticket.slot, i);
      }
    }
  }

  lemma AddKeepsCommitted(s: State, r: State, d: Dispatch)
    requires Inv(s) && Adds(s, r, d)
    ensures Committed(r)
  {
  }

  lemma DispatchKeeps(s: State, call: CallId, p: Payload, env: Env)
    requires Inv(s)
    ensures Inv(PreDispatch(s, call, p, env))
  {
    if FindCall(s.dispatches, call).None? && MayDispatch(s, p, env) {
      var d := Dispatch(call, p, Unacknowledged);
      if s.work[p.ticket].stage == Reserved {
        ReservedDispatchAdds(s, call, p, env);
      } else {
        ReopeningDispatchAdds(s, call, p, env);
      }
      AddKeepsTables(s, Dispatched(s, call, p), d);
      AddKeepsCalls(s, Dispatched(s, call, p), d);
      AddKeepsCommitted(s, Dispatched(s, call, p), d);
    }
  }

  /** The agent may take the slot of dispatch i. */
  ghost predicate Seats(s: State, i: nat, a: Agent)
    requires Answerable(s, i)
  {
    var slot := s.dispatches[i].payload.ticket.slot;
    s.members[slot].agent == Some(a) || (s.members[slot].agent.None? && !TakenElsewhere(s, a, slot))
  }

  lemma AcknowledgeKeepsTables(s: State, i: nat, a: Agent)
    requires Shape(s) && Roster(s) && Carried(s) && Joined(s) && Answerable(s, i) && Seats(s, i, a)
    ensures var r := Acknowledged(s, i, a); Shape(r) && Roster(r) && Carried(r) && Joined(r)
  {
  }

  lemma AcknowledgeKeepsCalls(s: State, i: nat, a: Agent)
    requires UniqueCalls(s.dispatches) && SingleLive(s.dispatches) && LiveIsActive(s) && RefusedIsIdle(s) && OneSpawn(s)
    requires Answerable(s, i)
    ensures var r := Acknowledged(s, i, a);
            UniqueCalls(r.dispatches) && SingleLive(r.dispatches) && LiveIsActive(r) && RefusedIsIdle(r) && OneSpawn(r)
  {
  }

  lemma AcknowledgeKeepsCommitted(s: State, i: nat, a: Agent)
    requires Committed(s) && Answerable(s, i)
    ensures Committed(Acknowledged(s, i, a))
  {
  }

  lemma AcknowledgeKeeps(s: State, i: nat, a: Agent)
    requires Inv(s) && Answerable(s, i) && Seats(s, i, a)
    ensures Inv(Acknowledged(s, i, a))
  {
    AcknowledgeKeepsTables(s, i, a);
    AcknowledgeKeepsCalls(s, i, a);
    AcknowledgeKeepsCommitted(s, i, a);
  }

  lemma ElsewhereKeeps(s: State, a: Agent)
    requires Inv(s)
    ensures Inv(BindElsewhere(s, a))
  {
    var r := BindElsewhere(s, a);
    forall i | 0 <= i < |r.dispatches| && s.dispatches[i].payload.kind == Spawn && Holding(s, i)
      ensures Holding(r, i) {}
  }

  /** A spawn without an answer is recorded as refused. */
  ghost predicate Refuses(s: State, r: State, i: nat) {
    i < |s.dispatches| && Outstanding(s.dispatches[i].state) &&
    r == s.(dispatches := SetCall(s.dispatches, i, CallFailed),
            rejected := s.rejected[s.dispatches[i].payload.ticket := s.dispatches[i].call])
  }

  lemma RefuseRefuses(s: State, call: CallId)
    requires Refuse(s, call) != s
    ensures var i := FindCall(s.dispatches, call); i.Some? && Refuses(s, Refuse(s, call), i.value)
  {
  }

  lemma RefusesKeepsTables(s: State, r: State, i: nat)
    requires Inv(s) && Refuses(s, r, i)
    ensures Shape(r) && Roster(r) && Carried(r) && Joined(r) && UniqueCalls(r.dispatches) && OneSpawn(r)
  {
  }

  lemma RefusesKeepsLive(s: State, r: State, i: nat)
    requires SingleLive(s.dispatches) && LiveIsActive(s) && RefusedIsIdle(s) && Refuses(s, r, i)
    ensures SingleLive(r.dispatches) && LiveIsActive(r) && RefusedIsIdle(r)
  {
  }

  lemma RefusesKeepsCommitted(s: State, r: State, i: nat)
    requires Inv(s) && Refuses(s, r, i)
    ensures Committed(r)
  {
  }

  lemma RefuseKeeps(s: State, call: CallId)
    requires Inv(s)
    ensures Inv(Refuse(s, call))
  {
    if Refuse(s, call) != s {
      RefuseRefuses(s, call);
      var i := FindCall(s.dispatches, call).value;
      RefusesKeepsTables(s, Refuse(s, call), i);
      RefusesKeepsLive(s, Refuse(s, call), i);
      RefusesKeepsCommitted(s, Refuse(s, call), i);
    }
  }

  lemma RetryKeeps(s: State, slot: nat, env: Env)
    requires Inv(s)
    ensures Inv(Retry(s, slot, env))
  {
  }

  /** The row of a bound slot moves and all its dispatches close. */
  ghost predicate Lands(s: State, r: State, t: Ticket) {
    && t in s.work && t.slot < |s.members| && s.members[t.slot].agent.Some?
    && t in r.work && r.work == s.work[t := r.work[t]] && r.work[t].agent == s.work[t].agent
    && (exists state :: !Outstanding(state) && r.dispatches == SetCalls(s.dispatches, t, state))
    && r.contract == s.contract && r.plans == s.plans && r.members == s.members && r.foreign == s.foreign &&
       r.rejected == s.rejected && r.retried == s.retried && r.metas == s.metas
  }

  lemma LandsKeepsTables(s: State, r: State, t: Ticket)
    requires Inv(s) && Lands(s, r, t)
    ensures Shape(r) && Roster(r) && Carried(r) && Joined(r)
  {
  }

  lemma LandsKeepsNames(s: State, r: State, t: Ticket)
    requires Inv(s) && Lands(s, r, t)
    ensures UniqueCalls(r.dispatches) && OneSpawn(r)
  {
    assert forall i | 0 <= i < |s.dispatches| ::
        r.dispatches[i].call == s.dispatches[i].call && r.dispatches[i].payload == s.dispatches[i].payload;
  }

  lemma LandsKeepsLive(s: State, r: State, t: Ticket)
    requires Inv(s) && Lands(s, r, t)
    ensures SingleLive(r.dispatches) && LiveIsActive(r) && RefusedIsIdle(r)
  {
    assert forall i | 0 <= i < |s.dispatches| && s.dispatches[i].payload.ticket == t ::
        !Outstanding(r.dispatches[i].state);
    assert forall i | 0 <= i < |s.dispatches| && s.dispatches[i].payload.ticket != t ::
        r.dispatches[i] == s.dispatches[i];
  }

  lemma LandsKeepsCommitted(s: State, r: State, t: Ticket)
    requires Inv(s) && Lands(s, r, t)
    ensures Committed(r)
  {
    assert forall i | 0 <= i < |s.dispatches| && s.dispatches[i].payload.ticket != t ::
        r.dispatches[i] == s.dispatches[i];
  }

  lemma LandsKeeps(s: State, r: State, t: Ticket)
    requires Inv(s) && Lands(s, r, t)
    ensures Inv(r)
  {
    LandsKeepsTables(s, r, t);
    LandsKeepsNames(s, r, t);
    LandsKeepsLive(s, r, t);
    LandsKeepsCommitted(s, r, t);
  }

  lemma LandLands(s: State, t: Ticket, stage: Stage)
    requires Carried(s) && t in s.work && s.work[t].agent.Some?
    ensures Lands(s, Land(s, t, stage), t)
  {
    var r := Land(s, t, stage);
    assert r.work == s.work[t := r.work[t]];
  }

  lemma ObserveKeeps(s: State, call: CallId, w: Wait, a: Agent, status: Native)
    requires Inv(s) && a in w.snapshot
    ensures Inv(Observe(s, call, w, a, status))
  {
    if Counts(s, w, a) {
      var t := w.snapshot[a].ticket;
      var noted := Noted(s, call, w, a, status);
      SameCoreKeeps(s, noted);
      if Landing(status, s.work[t].stage).Some? {
        var stage := Landing(status, s.work[t].stage).value;
        LandLands(noted, t, stage);
        LandsKeeps(noted, Land(noted, t, stage), t);
      }
    }
  }

  lemma ObserveOneKeeps(s: State, call: CallId, w: Wait, lone: bool, key: string, status: Option<Native>)
    requires Inv(s)
    ensures Inv(ObserveOne(s, call, w, lone, key, status))
  {
    var a := Resolve(w, lone, key);
    if a.Some? && a.value in w.snapshot && status.Some? {
      ObserveKeeps(s, call, w, a.value, status.value);
    }
  }

  lemma JoinKeepsTables(s: State, a: Agent, t: Ticket, genuine: bool, env: Env)
    requires Inv(s) && MayJoin(s, a, t, genuine, env)
    ensures var r := Join(s, a, t, genuine, env); Shape(r) && Roster(r) && Carried(r) && Joined(r)
  {
    JoinKeepsWorkers(s, a, t, genuine, env);
  }

  lemma JoinKeepsWorkers(s: State, a: Agent, t: Ticket, genuine: bool, env: Env)
    requires Inv(s) && MayJoin(s, a, t, genuine, env)
    ensures Joined(Join(s, a, t, genuine, env)) && Roster(Join(s, a, t, genuine, env))
  {
    var r := Join(s, a, t, genuine, env);
    assert forall k | 0 <= k < |s.members| :: r.members[k].agent == s.members[k].agent;
    assert forall b | b in r.metas && b != a :: b in s.metas && r.metas[b] == s.metas[b];
  }

  lemma JoinKeepsCalls(s: State, a: Agent, t: Ticket, genuine: bool, env: Env)
    requires Inv(s) && MayJoin(s, a, t, genuine, env)
    ensures var r := Join(s, a, t, genuine, env);
            UniqueCalls(r.dispatches) && SingleLive(r.dispatches) && LiveIsActive(r) && RefusedIsIdle(r) &&
            Committed(r) && OneSpawn(r)
  {
  }

  lemma JoinKeeps(s: State, a: Agent, t: Ticket, genuine: bool, env: Env)
    requires Inv(s)
    ensures Inv(Join(s, a, t, genuine, env))
  {
    if MayJoin(s, a, t, genuine, env) {
      JoinKeepsTables(s, a, t, genuine, env);
      JoinKeepsCalls(s, a, t, genuine, env);
    }
  }

  lemma HandBackKeeps(s: State, a: Agent, status: Status)
    requires Inv(s)
    ensures Inv(HandBack(s, a, status))
  {
    var r := HandBack(s, a, status);
    if r != s {
      LandsKeeps(s, r, s.metas[a].ticket);
    }
  }

  lemma IntegrateKeeps(s: State, slot: nat, env: Env)
    requires Inv(s)
    ensures Inv(Integrate(s, slot, env))
  {
    var r := Integrate(s, slot, env);
    if MayIntegrate(s, slot, env) {
      LandsKeeps(s, r, Now(s, slot));
    }
  }

  lemma AcceptKeeps(s: State, slot: nat, env: Env)
    requires Inv(s)
    ensures Inv(AcceptTask(s, slot, env))
  {
  }

  /** No spawn still holds an unbound slot. */
  ghost predicate NoneHeld(s: State) {
    forall i | 0 <= i < |s.dispatches| && SpawnOfUnbound(s, i) :: s.dispatches[i].call in s.retried
  }

  lemma HolderIsUnsettled(s: State, i: nat)
    requires Shape(s) && i < |s.dispatches| && Holding(s, i)
    ensures !Settled(s)
  {
    assert Now(s, s.dispatches[i].payload.ticket.slot) == s.dispatches[i].payload.ticket;
  }

  lemma SettledHoldsNothing(s: State)
    requires Inv(s) && Settled(s)
    ensures NoneHeld(s)
  {
    forall i | 0 <= i < |s.dispatches| && SpawnOfUnbound(s, i) ensures s.dispatches[i].call in s.retried {
      if s.dispatches[i].call !in s.retried {
        HolderIsUnsettled(s, i);
      }
    }
  }

  /** Rows change stage and result when no native work goes on. */
  ghost predicate Restaged(s: State, r: State) {
    && r.work.Keys == s.work.Keys && (forall t | t in s.work :: r.work[t].agent == s.work[t].agent)
    && (r.contract.Some? ==> s.contract.Some? && r.contract.value.plan == s.contract.value.plan)
    && r.plans == s.plans && r.members == s.members && r.foreign == s.foreign &&
       r.dispatches == s.dispatches && r.rejected == s.rejected && r.retried == s.retried && r.metas == s.metas
  }

  lemma RestageKeeps(s: State, r: State)
    requires Inv(s) && !AnyLive(s) && NoneHeld(s) && Restaged(s, r)
    ensures Inv(r) && !AnyLive(r) && NoneHeld(r)
  {
  }

  lemma NewRoundKeeps(s: State, c: Contract, tasks: seq<Task>)
    requires Inv(s) && !AnyLive(s) && NoneHeld(s) && |tasks| == SLOTS
    ensures Inv(NewRound(s, c, tasks))
  {
    var r := NewRound(s, c, tasks);
    assert forall t | t in s.work :: t in r.work && r.work[t] == s.work[t];
  }

  lemma ClosedRestages(s: State)
    ensures Restaged(s, Closed(s))
  {
  }

  lemma ClosedKeeps(s: State)
    requires Inv(s) && !AnyLive(s) && NoneHeld(s)
    ensures Inv(Closed(s)) && !AnyLive(Closed(s)) && NoneHeld(Closed(s))
  {
    ClosedRestages(s);
    RestageKeeps(s, Closed(s));
  }

  lemma StartKeeps(s: State, revise: bool, terms: Terms, free: bool, env: Env)
    requires Inv(s)
    ensures Inv(Start(s, revise, terms, free, env))
  {
    if MayStart(s, revise, terms, free, env) {
      SettledHoldsNothing(s);
      ClosedKeeps(s);
      NewRoundKeeps(Closed(s), Agreed(terms), LensTasks(PlanLenses, terms.evidencePaths));
    }
  }

  lemma BoundHoldsNothing(s: State)
    requires AllBound(s)
    ensures NoneHeld(s)
  {
  }

  lemma AcceptedRoundKeeps(s: State, repairing: bool, c: Contract, tasks: seq<Task>)
    requires Inv(s) && s.contract.Some? && !AnyLive(s) && AllBound(s) && |tasks| == SLOTS
    ensures Inv(NewRound(AcceptRound(s, repairing), c, tasks))
  {
    BoundHoldsNothing(s);
    RestageKeeps(s, AcceptRound(s, repairing));
    NewRoundKeeps(AcceptRound(s, repairing), c, tasks);
  }

  lemma ExecuteKeeps(s: State, repair: bool, decision: string, tasks: seq<Task>, env: Env)
    requires Inv(s)
    ensures Inv(Execute(s, repair, decision, tasks, env))
  {
    if MayExecute(s, repair, decision, tasks, env) {
      AcceptedRoundKeeps(s, repair, Executing(s.contract.value, decision), tasks);
    }
  }

  lemma ReviewKeeps(s: State, decision: string, order: seq<Paths.Path>, env: Env)
    requires Inv(s)
    ensures Inv(Review(s, decision, order, env))
  {
    if MayReview(s, decision, order, env) {
      var terms := Frozen(s.contract.value, decision, env);
      var tasks := LensTasks(ReviewLenses, order);
      AcceptedRoundKeeps(s, false, terms, tasks);
      SameCoreKeeps(NewRound(AcceptRound(s, false), terms, tasks), OpenReview(s, decision, order, env));
    }
  }

  lemma FinishKeeps(s: State, decision: string, env: Env)
    requires Inv(s)
    ensures Inv(Finish(s, decision, env))
  {
    if MayFinish(s, decision, env) {
      BoundHoldsNothing(s);
      RestageKeeps(s, Finish(s, decision, env));
    }
  }

  /** Rows are reserved, or change task or checkout. */
  ghost predicate Promoted(s: State, r: State) {
    && r.work.Keys == s.work.Keys
    && (forall t | t in s.work :: r.work[t].agent == s.work[t].agent &&
          (r.work[t].stage == s.work[t].stage || (s.work[t].stage == Pending && r.work[t].stage == Reserved)))
    && r.contract == s.contract && r.plans == s.plans && r.members == s.members && r.foreign == s.foreign &&
       r.dispatches == s.dispatches && r.rejected == s.rejected && r.retried == s.retried && r.metas == s.metas
  }

  lemma RowPromoted(s: State, t: Ticket)
    requires t in s.work && s.work[t].stage == Pending
    ensures Promoted(s, s.(work := s.work[t := Reserve(s.work[t])]))
  {
  }

  lemma ReserveSlotPromotes(s: State, slot: nat, met: set<nat>)
    requires s.contract.Some?
    ensures Promoted(s, ReserveSlot(s, slot, met))
  {
    if MayReserve(s, slot, met) {
      RowPromoted(s, Now(s, slot));
    }
  }

  lemma PreparedPromotes(s: State, failing: set<nat>)
    requires s.contract.Some?
    ensures Promoted(s, Prepared(s, failing))
  {
  }

  lemma PromotedTwice(s: State, m: State, r: State)
    requires Promoted(s, m) && Promoted(m, r)
    ensures Promoted(s, r)
  {
  }

  lemma {:induction false} ReservePromotes(s: State, slot: nat, met: set<nat>)
    requires s.contract.Some?
    ensures Promoted(s, ReserveFrom(s, slot, met))
    decreases SLOTS - slot
  {
    if slot < SLOTS {
      ReserveSlotPromotes(s, slot, met);
      ReservePromotes(ReserveSlot(s, slot, met), slot + 1, met);
      PromotedTwice(s, ReserveSlot(s, slot, met), ReserveFrom(s, slot, met));
    }
  }

  lemma PromoteKeeps(s: State, r: State)
    requires Inv(s) && Promoted(s, r)
    ensures Inv(r)
  {
    forall i | 0 <= i < |r.dispatches| && s.dispatches[i].payload.kind == Spawn && Holding(s, i)
      ensures Holding(r, i) {}
  }

  lemma NextKeeps(s: State, failing: set<nat>, env: Env)
    requires Inv(s)
    ensures Inv(Next(s, failing, env))
  {
    if Ready(s, env) && s.contract.value.phase != COMPLETE {
      var reserved := ReserveFrom(s, 0, MetSlots(s));
      ReservePromotes(s, 0, MetSlots(s));
      PreparedPromotes(reserved, failing);
      PromotedTwice(s, reserved, Prepared(reserved, failing));
      PromoteKeeps(s, Prepared(reserved, failing));
    }
  }

  /** An answer is ignored, loses the call, or binds the agent it names. */
  lemma AnswerCases(s: State, call: CallId, answer: Answer)
    requires Shape(s)
    ensures var i := FindCall(s.dispatches, call);
            var r := PostDispatch(s, call, answer);
            r == s ||
            (i.Some? && Answerable(s, i.value) &&
             (r == s.(dispatches := SetCall(s.dispatches, i.value, Unknown)) ||
              exists a :: Seats(s, i.value, a) && r == Acknowledged(s, i.value, a)))
  {
  }

  lemma PostDispatchKeeps(s: State, call: CallId, answer: Answer)
    requires Inv(s)
    ensures Inv(PostDispatch(s, call, answer))
  {
    var i := FindCall(s.dispatches, call);
    var r := PostDispatch(s, call, answer);
    AnswerCases(s, call, answer);
    if r == s {
    } else if r == s.(dispatches := SetCall(s.dispatches, i.value, Unknown)) {
      LostAnswerKeeps(s, i.value);
    } else {
      var a :| Seats(s, i.value, a) && r == Acknowledged(s, i.value, a);
      AcknowledgeKeeps(s, i.value, a);
    }
  }

  lemma ReconciledKeeps(s: State, call: CallId, receipt: Receipt)
    requires Inv(s)
    ensures Inv(Reconciled(s, call, receipt))
  {
    if Heard(receipt).Receipt? {
      RefuseKeeps(s, call);
      PostDispatchKeeps(s, call, receipt.decode(Heard(receipt).output).answer);
    }
  }

  lemma LostAnswerKeepsTables(s: State, i: nat)
    requires Inv(s) && Answerable(s, i)
    ensures var r := s.(dispatches := SetCall(s.dispatches, i, Unknown));
            Shape(r) && Roster(r) && Carried(r) && Joined(r) && UniqueCalls(r.dispatches) && OneSpawn(r)
  {
  }

  lemma LostAnswerKeepsLive(s: State, i: nat)
    requires Inv(s) && Answerable(s, i)
    ensures var r := s.(dispatches := SetCall(s.dispatches, i, Unknown));
            SingleLive(r.dispatches) && LiveIsActive(r) && RefusedIsIdle(r) && Committed(r)
  {
  }

  lemma LostAnswerKeeps(s: State, i: nat)
    requires Inv(s) && Answerable(s, i)
    ensures Inv(s.(dispatches := SetCall(s.dispatches, i, Unknown)))
  {
    LostAnswerKeepsTables(s, i);
    LostAnswerKeepsLive(s, i);
  }

  lemma {:induction false} ObserveAllKeeps(s: State, call: CallId, w: Wait, lone: bool,
                                           statuses: seq<(string, Option<Native>)>)
    requires Inv(s)
    ensures Inv(ObserveAll(s, call, w, lone, statuses))
    decreases |statuses|
  {
    if statuses != [] {
      ObserveOneKeeps(s, call, w, lone, statuses[0].0, statuses[0].1);
      ObserveAllKeeps(ObserveOne(s, call, w, lone, statuses[0].0, statuses[0].1), call, w, lone, statuses[1..]);
    }
  }

  lemma PostWaitKeeps(s: State, call: CallId, r: WaitResult)
    requires Inv(s)
    ensures Inv(PostWait(s, call, r))
  {
    if PostWait(s, call, r) != s {
      var w := s.waits[call];
      var seen := Listen(s, call, w, r);
      if r.statuses.Some? {
        ObserveAllKeeps(s, call, w, |r.statuses.value| == 1, r.statuses.value);
      }
      SameCoreKeeps(seen, PostWait(s, call, r));
    }
  }

  // ---------- runs ----------

  lemma HostKeeps(s: State, h: HostCommand)
    requires Inv(s)
    ensures Inv(ApplyHost(s, h))
  {
    match h
    case PreCall(call, p, env) => DispatchKeeps(s, call, p, env);
    case PostCall(call, answer) => PostDispatchKeeps(s, call, answer);
    case ForeignBinding(a) => ElsewhereKeeps(s, a);
    case Reconcile(call, receipt) => ReconciledKeeps(s, call, receipt);
    case RetryNative(slot, env) => RetryKeeps(s, slot, env);
  }

  lemma WaitKeeps(s: State, w: WaitCommand)
    requires Inv(s)
    ensures Inv(ApplyWait(s, w))
  {
    match w
    case PreWaiting(call, targets, env) => PreWaitKeeps(s, call, targets, env);
    case PostWaiting(call, r) => PostWaitKeeps(s, call, r);
    case Recover(slot, env) => RecoverKeeps(s, slot, env);
  }

  lemma WorkerKeeps(s: State, k: WorkerCommand)
    requires Inv(s)
    ensures Inv(ApplyWorker(s, k))
  {
    match k
    case JoinCrew(a, t, genuine, env) => JoinKeeps(s, a, t, genuine, env);
    case SubmitReport(a, d, env) => SubmitKeeps(s, a, d, env);
    case Return(a, status) => HandBackKeeps(s, a, status);
  }

  lemma RootKeeps(s: State, r: RootCommand)
    requires Inv(s)
    ensures Inv(ApplyRoot(s, r))
  {
    match r
    case IntegrateTask(slot, env) => IntegrateKeeps(s, slot, env);
    case AcceptOne(slot, env) => AcceptKeeps(s, slot, env);
    case Deliver(slots) => DeliverKeeps(s, slots);
  }

  lemma RoundKeeps(s: State, n: RoundCommand)
    requires Inv(s)
    ensures Inv(ApplyRound(s, n))
  {
    match n
    case StartCrew(revise, terms, free, env) => StartKeeps(s, revise, terms, free, env);
    case NextCrew(failing, env) => NextKeeps(s, failing, env);
    case ExecuteCrew(repair, decision, tasks, env) => ExecuteKeeps(s, repair, decision, tasks, env);
    case ReviewCrew(decision, order, env) => ReviewKeeps(s, decision, order, env);
    case CompleteCrew(decision, env) => FinishKeeps(s, decision, env);
  }

  lemma ApplyKeeps(s: State, c: Command)
    requires Inv(s)
    ensures Inv(Apply(s, c))
  {
    match c
    case AtHost(h) => HostKeeps(s, h);
    case AtWait(w) => WaitKeeps(s, w);
    case ByWorker(k) => WorkerKeeps(s, k);
    case ByRoot(r) => RootKeeps(s, r);
    case AtRound(n) => RoundKeeps(s, n);
  }

  lemma {:induction false} RunKeeps(s: State, cs: seq<Command>)
    requires Inv(s)
    ensures Inv(Run(s, cs))
    decreases |cs|
  {
    if cs != [] {
      ApplyKeeps(s, cs[0]);
      RunKeeps(Apply(s, cs[0]), cs[1..]);
    }
  }

  lemma ReachableCrew(foreign: set<Agent>, cs: seq<Command>)
    ensures Inv(Run(Initial(foreign), cs))
  {
    InitialInv(foreign);
    RunKeeps(Initial(foreign), cs);
  }
}
