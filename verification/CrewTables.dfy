/** The Crew and Flow objects: their tables as fields, and the commands that update them in place. */
module CrewTables {
  import opened Wrappers
  import opened Work
  import opened Crew
  import opened CrewBudget
  import opened CrewPromises
  import opened CrewReports
  import opened CrewSchedule
  import opened CrewStatuses
  import opened Files
  import opened Plans
  import Paths
  import Traces

  /** Whether a task clashes with one of the listed writers. */
  predicate ClashesWith(t: Task, occupied: seq<Task>) {
    exists k :: 0 <= k < |occupied| && Clash(t, occupied[k])
  }

  /** The tasks of the round's rows below n that occupy their paths. */
  function Owned(s: State, n: nat): seq<Task>
    requires s.contract.Some?
  {
    if n == 0 then []
    else
      var t := Now(s, n - 1);
      Owned(s, n - 1) + if t in s.work && Occupies(s.work[t].stage) then [s.work[t].task] else []
  }

  lemma {:induction false} OwnedClashes(s: State, n: nat, t: Task)
    requires s.contract.Some?
    ensures ClashesWith(t, Owned(s, n)) <==>
            exists i :: 0 <= i < n && Now(s, i) in s.work && Occupies(s.work[Now(s, i)].stage) &&
                        Clash(t, s.work[Now(s, i)].task)
  {
    if n > 0 {
      OwnedClashes(s, n - 1, t);
      var rest, all := Owned(s, n - 1), Owned(s, n);
      assert forall k | 0 <= k < |rest| :: all[k] == rest[k];
      if |all| > |rest| {
        assert all[|rest|] == s.work[Now(s, n - 1)].task;
      }
    }
  }

  lemma UnhinderedByReopening(s: State, r: State, p: Payload)
    requires p.ticket in s.work && p.ticket in r.work && r.dispatches == s.dispatches && r.members == s.members
    requires r.work[p.ticket].task == s.work[p.ticket].task && r.work[p.ticket].workspace == s.work[p.ticket].workspace
    ensures Unhindered(r, p) == Unhindered(s, p)
  {
  }

  lemma OneMoreClash(t: Task, occupied: seq<Task>, task: Task)
    ensures ClashesWith(t, occupied + [task]) <==> ClashesWith(t, occupied) || Clash(t, task)
  {
    var all := occupied + [task];
    assert all[|occupied|] == task;
    assert forall k | 0 <= k < |occupied| :: all[k] == occupied[k];
  }

  lemma OneMoreOwner(s: State, r: State, slot: nat, t: Task)
    requires s.contract.Some? && slot < SLOTS && Now(s, slot) in s.work && s.work[Now(s, slot)].stage == Pending
    requires r == s.(work := s.work[Now(s, slot) := s.work[Now(s, slot)].(stage := Reserved)])
    ensures Contended(r, t) <==> Contended(s, t) || Clash(t, s.work[Now(s, slot)].task)
  {
    assert forall i | 0 <= i < SLOTS :: Now(r, i) == Now(s, i);
  }

  class Tables {
    var contract: Option<Contract>
    var plans: nat
    var members: seq<Member>
    var foreign: set<Agent>
    var work: map<Ticket, Row>
    var dispatches: seq<Dispatch>
    var rejected: map<Ticket, CallId>
    var retried: set<CallId>
    var waits: map<CallId, Wait>
    var observed: map<Ticket, Observation>
    var requests: map<Ticket, Request>
    var recoveries: map<Ticket, nat>
    var metas: map<Agent, Meta>
    var reports: map<Ticket, Report>
    var delivered: map<Ticket, Report>
    var log: seq<Event>
    ghost const others: set<Agent>
    ghost var history: seq<Command>

    function Abs(): State
      reads this
    {
      State(contract, plans, members, foreign, work, dispatches, rejected, retried, waits, observed, requests,
            recoveries, metas, reports, delivered, log)
    }

    /** The tables are what the commands issued so far make of an empty crew. */
    ghost predicate Valid()
      reads this
    {
      Leads(Initial(others), history, Abs())
    }

    /** The run went on by one command. */
    ghost predicate Did(before: seq<Command>, c: Command)
      reads this
    {
      Valid() && history == before + [c]
    }

    constructor (bound: set<Agent>)
      ensures Valid() && Abs() == Initial(bound) && history == []
    {
      contract, plans, members, foreign := None, 0, seq(SLOTS, i => Member(None, false)), bound;
      work, dispatches, rejected, retried, waits := map[], [], map[], {}, map[];
      observed, requests, recoveries, metas, reports, delivered, log := map[], map[], map[], map[], map[], map[], [];
      others, history := bound, [];
      new;
      Traces.LeadsNowhere(Apply, Abs(), Abs());
    }

    /** One more command was carried out. */
    ghost method Record(was: State, c: Command)
      requires Leads(Initial(others), history, was) && Abs() == Apply(was, c)
      modifies this`history
      ensures Did(old(history), c) && Abs() == old(Abs())
    {
      Traces.LeadsOn(Apply, Initial(others), history, was, c);
      history := history + [c];
    }

    // ---------- dispatch ----------

    /** Crew.pre_dispatch: what is sent is the ticket's only live call, within its budget; and a spawn has no rival. */
    method PreDispatch(call: CallId, p: Payload, env: Env) returns (sent: bool)
      requires Valid()
      modifies this
      ensures Did(old(history), AtHost(PreCall(call, p, env))) && Abs() == Crew.PreDispatch(old(Abs()), call, p, env)
      ensures if sent then OneSent(old(Abs()), Abs(), call, p, old(history)) else Abs() == old(Abs())
    {
      ghost var was := Abs();
      sent := Send(call, p, env);
      if sent {
        Authorised(others, history, was, call, p, env);
      }
      Record(was, AtHost(PreCall(call, p, env)));
    }

    /** A recovery reopens its row first, and what stops the dispatch after that rolls it back. */
    method Send(call: CallId, p: Payload, env: Env) returns (sent: bool)
      modifies this`work, this`dispatches, this`recoveries, this`reports
      ensures Abs() == Crew.PreDispatch(old(Abs()), call, p, env)
      ensures sent <==> FindCall(old(dispatches), call).None? && MayDispatch(old(Abs()), p, env)
      ensures !sent ==> Abs() == old(Abs())
    {
      sent := Authorize(call, p, env);
      if sent {
        var row := work[p.ticket];
        work := work[p.ticket := if p.target.Some? then row.(agent := p.target) else row];
        dispatches := dispatches + [Dispatch(call, p, Unacknowledged)];
      }
    }

    /** The checks of a dispatch, with the reopening of its row among them. */
    method Authorize(call: CallId, p: Payload, env: Env) returns (ok: bool)
      modifies this`work, this`recoveries, this`reports
      ensures ok <==> FindCall(old(dispatches), call).None? && MayDispatch(old(Abs()), p, env)
      ensures ok ==> Abs() == (if old(work)[p.ticket].stage == Reserved then old(Abs())
                               else Reopened(old(Abs()), p.ticket))
      ensures !ok ==> Abs() == old(Abs())
    {
      var t := p.ticket;
      if FindCall(dispatches, call).Some? || !Addressed(Abs(), p, env) {
        return false;
      }
      var rows, counts, present := work, recoveries, reports;
      if work[t].stage != Reserved {
        Reopen(t);
      }
      assert Abs() == if rows[t].stage == Reserved then old(Abs()) else Reopened(old(Abs()), t);
      ok := Unhindered(Abs(), p);
      UnhinderedByReopening(old(Abs()), Abs(), p);
      if !ok {
        work, recoveries, reports := rows, counts, present;
      }
    }

    /** Flow.authorize_recovery, past its checks. */
    method Reopen(t: Ticket)
      requires t in work && t in requests
      modifies this`work, this`recoveries, this`reports
      ensures Abs() == Reopened(old(Abs()), t)
    {
      if requests[t].reassess {
        reports := reports - {t};
      }
      recoveries := recoveries[t := (if t in recoveries then recoveries[t] else 0) + 1];
      work := work[t := work[t].(stage := Reserved, result := None)];
    }

    /** Crew.post_dispatch: bound agents stay bound, a new one sits in no second slot, and other rows stay as they
        are. */
    method PostDispatch(call: CallId, answer: Answer)
      requires Valid()
      modifies this
      ensures Did(old(history), AtHost(PostCall(call, answer))) && Abs() == Crew.PostDispatch(old(Abs()), call, answer)
      ensures OneSlotEach(old(Abs()), Abs()) && OthersStay(old(Abs()), Abs(), call)
    {
      ghost var was := Abs();
      Acknowledge(call, answer);
      Bound(others, history, was, PostCall(call, answer));
      AnswerTouches(others, history, was, call, answer);
      Record(was, AtHost(PostCall(call, answer)));
    }

    method Acknowledge(call: CallId, answer: Answer)
      modifies this`members, this`work, this`dispatches
      ensures Abs() == Crew.PostDispatch(old(Abs()), call, answer)
    {
      var i := FindCall(dispatches, call);
      if i.Some? && Answerable(Abs(), i.value) {
        var d := dispatches[i.value];
        var t := d.payload.ticket;
        var bound := members[t.slot].agent;
        var agent := if d.payload.kind == Spawn then answer.agent else bound;
        if agent.None? || (d.payload.kind == CallKind.Send && !answer.submission) || answer.error {
          dispatches := dispatches[i.value := d.(state := Unknown)];
        } else if d.payload.kind == CallKind.Send ||
                  (!TakenElsewhere(Abs(), agent.value, t.slot) && (bound.None? || bound == agent)) {
          members := members[t.slot := members[t.slot].(agent := agent)];
          work := work[t := work[t].(agent := agent, stage := Running)];
          dispatches := dispatches[i.value := d.(state := InFlight)];
        }
      }
    }

    /** native_receipts.reconcile on one call: at most this call is newly refused, and only as its transcript proves. */
    method Reconcile(call: CallId, receipt: Receipt)
      requires Valid()
      modifies this
      ensures Did(old(history), AtHost(Crew.Reconcile(call, receipt))) && Abs() == Reconciled(old(Abs()), call, receipt)
      ensures RefusesOnly(old(Abs()), Abs(), call, receipt) && OneSlotEach(old(Abs()), Abs())
    {
      ghost var was := Abs();
      Hear(call, receipt);
      ReconcileRefusesOnly(others, history, was, call, receipt);
      Bound(others, history, was, Crew.Reconcile(call, receipt));
      Record(was, AtHost(Crew.Reconcile(call, receipt)));
    }

    /** The transcript is read once; its text either proves a refusal or is the answer. */
    method Hear(call: CallId, receipt: Receipt)
      modifies this`members, this`work, this`dispatches, this`rejected
      ensures Abs() == Reconciled(old(Abs()), call, receipt)
    {
      var i := FindCall(dispatches, call);
      if i.Some? && Unresolved(dispatches[i.value]) && receipt.expected.callId == call {
        var heard := Heard(receipt);
        if heard.Receipt? {
          if dispatches[i.value].payload.kind == Spawn && NotStarted(receipt.decode(heard.output)) {
            Refuse(call);
          } else {
            Acknowledge(call, receipt.decode(heard.output).answer);
          }
        }
      }
    }

    method Refuse(call: CallId)
      modifies this`dispatches, this`rejected
      ensures Abs() == Crew.Refuse(old(Abs()), call)
    {
      var i := FindCall(dispatches, call);
      if i.Some? && Answerable(Abs(), i.value) && dispatches[i.value].payload.kind == Spawn {
        var t := dispatches[i.value].payload.ticket;
        if work[t].agent.None? {
          dispatches := dispatches[i.value := dispatches[i.value].(state := CallFailed)];
          rejected := rejected[t := call];
        }
      }
    }

    /** Crew.retry_native: granted only on a proven refusal, and then the spawn may be authorised again. */
    method Retry(slot: nat, env: Env) returns (granted: bool)
      requires Valid()
      modifies this
      ensures Did(old(history), AtHost(RetryNative(slot, env))) && Abs() == Crew.Retry(old(Abs()), slot, env)
      ensures if granted then Granted(old(Abs()), Abs(), slot, env, old(history)) else Abs() == old(Abs())
    {
      ghost var was := Abs();
      granted := Grant(slot, env);
      if granted {
        RetryGranted(others, history, was, slot, env);
      }
      Record(was, AtHost(RetryNative(slot, env)));
    }

    method Grant(slot: nat, env: Env) returns (granted: bool)
      modifies this`rejected, this`retried
      ensures Abs() == Crew.Retry(old(Abs()), slot, env)
      ensures granted <==> Abs() != old(Abs())
    {
      granted := contract.Some? && env.current && slot < SLOTS && slot < |members| &&
                 Ticket(contract.value.plan, slot) in work;
      if granted {
        var t := Ticket(contract.value.plan, slot);
        granted := t in rejected && !TicketLive(Abs(), t) && work[t].stage == Reserved && work[t].agent.None? &&
                   members[slot].agent.None?;
        if granted {
          retried := retried + {rejected[t]};
          rejected := rejected - {t};
        }
      }
    }

    /** Another root takes an agent: it becomes foreign exactly if none of the six slots has it. */
    method BindElsewhere(a: Agent)
      requires Valid()
      modifies this
      ensures Did(old(history), AtHost(ForeignBinding(a))) && Abs() == Crew.BindElsewhere(old(Abs()), a)
      ensures Elsewhere(Abs(), a)
    {
      ghost var was := Abs();
      Yield(a);
      BoundElsewhere(others, history, was, a);
      Record(was, AtHost(ForeignBinding(a)));
    }

    method Yield(a: Agent)
      modifies this`foreign
      ensures Abs() == Crew.BindElsewhere(old(Abs()), a)
    {
      if !exists k :: 0 <= k < |members| && members[k].agent == Some(a) {
        foreign := foreign + {a};
      }
    }

    // ---------- observation and recovery ----------

    /** Flow.pre_wait: a wait that is issued saw the present dispatches of every target. */
    method PreWait(call: CallId, targets: seq<Agent>, env: Env) returns (issued: bool)
      requires Valid()
      modifies this
      ensures Did(old(history), AtWait(PreWaiting(call, targets, env))) &&
              Abs() == Crew.PreWait(old(Abs()), call, targets, env)
      ensures if issued then SeesTargets(Abs(), call, targets) else Abs() == old(Abs())
    {
      ghost var was := Abs();
      issued := Issue(call, targets, env);
      if issued {
        WaitIssued(was, call, targets, env);
      }
      Record(was, AtWait(PreWaiting(call, targets, env)));
    }

    /** The loop over the targets takes the snapshot, and one unknown target refuses the wait. */
    method Issue(call: CallId, targets: seq<Agent>, env: Env) returns (issued: bool)
      modifies this`waits
      ensures Abs() == Crew.PreWait(old(Abs()), call, targets, env)
      ensures if issued then call !in old(waits) && call in waits else Abs() == old(Abs())
    {
      issued := contract.Some? && env.current && 1 <= |targets| <= SLOTS && call !in waits &&
                forall i, j | 0 <= i < j < |targets| :: targets[i] != targets[j];
      if issued {
        var snapshot: map<Agent, Saved>;
        issued, snapshot := TakeSnapshot(targets);
        assert issued <==> WaitTargets(Abs(), targets) by {
          assert forall a | a in targets ::
              Waitable(a) <==> SlotOf(Abs(), a).Some? && work[Now(Abs(), SlotOf(Abs(), a).value)].stage != Pending;
        }
        if issued {
          waits := waits[call := Wait(contract.value.plan, targets, snapshot, None)];
        }
      }
    }

    /** Whether an agent is carried by a row of the round that was issued. */
    predicate Waitable(a: Agent)
      requires contract.Some?
      reads this
    {
      SlotOf(Abs(), a).Some? && work[Now(Abs(), SlotOf(Abs(), a).value)].stage != Pending
    }

    method TakeSnapshot(targets: seq<Agent>) returns (ok: bool, snapshot: map<Agent, Saved>)
      requires contract.Some?
      ensures ok <==> forall a | a in targets :: Waitable(a)
      ensures ok ==> snapshot == SnapshotOf(Abs(), targets)
    {
      snapshot := map[];
      for i := 0 to |targets|
        invariant forall k | 0 <= k < i :: Waitable(targets[k])
        invariant snapshot.Keys == set k | 0 <= k < i :: targets[k]
        invariant forall a | a in snapshot :: Waitable(a) &&
                    var t := Now(Abs(), SlotOf(Abs(), a).value); snapshot[a] == Saved(t, Epoch(dispatches, t))
      {
        var slot := SlotOf(Abs(), targets[i]);
        if slot.None? || work[Ticket(contract.value.plan, slot.value)].stage == Pending {
          assert targets[i] in targets && !Waitable(targets[i]);
          return false, snapshot;
        }
        var t := Ticket(contract.value.plan, slot.value);
        snapshot := snapshot[targets[i] := Saved(t, Epoch(dispatches, t))];
      }
      ok := true;
      assert forall a | a in targets :: a in snapshot;
      assert snapshot == SnapshotOf(Abs(), targets);
    }

    /** Flow.post_wait: each status counts for the ticket the wait saw as it is, and no other ticket moves; the wait is
        over for good. */
    method PostWait(call: CallId, r: WaitResult)
      requires Valid()
      modifies this
      ensures Did(old(history), AtWait(PostWaiting(call, r))) && Abs() == Crew.PostWait(old(Abs()), call, r)
      ensures Heeds(old(Abs()), Abs(), call) && EachCounts(old(Abs()), Abs(), call, r)
    {
      ghost var was := Abs();
      Listen(call, r);
      StatusesCount(others, history, was, call, r);
      ResultIsHeeded(was, call, r);
      Record(was, AtWait(PostWaiting(call, r)));
    }

    method Listen(call: CallId, r: WaitResult)
      modifies this`work, this`observed, this`dispatches, this`waits
      ensures Abs() == Crew.PostWait(old(Abs()), call, r)
    {
      if call in waits && waits[call].result.None? {
        var w := waits[call];
        if contract.Some? && contract.value.plan == w.plan && !r.error && r.statuses.Some? {
          var statuses := r.statuses.value;
          for i := 0 to |statuses|
            invariant ObserveAll(Abs(), call, w, |statuses| == 1, statuses[i..]) ==
                      ObserveAll(old(Abs()), call, w, |statuses| == 1, statuses)
            invariant waits == old(waits)
          {
            assert statuses[i..][1..] == statuses[i + 1..];
            Take(call, w, |statuses| == 1, statuses[i].0, statuses[i].1);
          }
          assert statuses[|statuses|..] == [];
        }
        waits := waits[call := w.(result := Some(r))];
      }
    }

    /** One status of a wait result. */
    method Take(call: CallId, w: Wait, lone: bool, key: string, status: Option<Native>)
      modifies this`work, this`observed, this`dispatches
      ensures Abs() == ObserveOne(old(Abs()), call, w, lone, key, status)
    {
      var agent := Resolve(w, lone, key);
      if agent.Some? && agent.value in w.snapshot && status.Some? {
        TakeStatus(call, w, agent.value, status.value);
      }
    }

    method TakeStatus(call: CallId, w: Wait, agent: Agent, status: Native)
      requires agent in w.snapshot
      modifies this`work, this`observed, this`dispatches
      ensures Abs() == Observe(old(Abs()), call, w, agent, status)
    {
      var saved := w.snapshot[agent];
      var t := saved.ticket;
      if Epoch(dispatches, t) != saved.epoch || t !in work || t.plan != w.plan || work[t].agent != Some(agent) {
        return;
      }
      observed := observed[t := Observation(status, Some(agent), saved.epoch, w.plan, call)];
      var landing := Landing(status, work[t].stage);
      if landing.Some? {
        LandRow(t, landing.value);
      }
    }

    method LandRow(t: Ticket, stage: Stage)
      requires t in work
      modifies this`work, this`dispatches
      ensures Abs() == Land(old(Abs()), t, stage)
    {
      work := work[t := work[t].(stage := stage, result := Some(Handback(Status.Unverified, None, false)))];
      dispatches := SetCalls(dispatches, t, if stage == Returned then CallReturned else CallFailed);
    }

    /** Flow.prepare_recovery: a follow-up that is prepared for a bound agent is one the dispatch will honour. */
    method PrepareRecovery(slot: nat, env: Env) returns (prepared: bool)
      requires Valid()
      modifies this
      ensures Did(old(history), AtWait(Recover(slot, env))) && Abs() == Crew.PrepareRecovery(old(Abs()), slot, env)
      ensures if prepared then Honoured(Abs(), slot, env) else Abs() == old(Abs())
    {
      ghost var was := Abs();
      prepared := Draw(slot, env);
      if prepared {
        RecoveryIsPrepared(was, slot, env);
      }
      Record(was, AtWait(Recover(slot, env)));
    }

    /** The request of a recovery. */
    method Draw(slot: nat, env: Env) returns (prepared: bool)
      modifies this`requests
      ensures prepared <==>
                Ready(Abs(), env) && HasRow(Abs(), slot) && MayPrepareRecovery(old(Abs()), Now(Abs(), slot), env)
      ensures Abs() == Crew.PrepareRecovery(old(Abs()), slot, env)
    {
      prepared := contract.Some? && env.current && HasRow(Abs(), slot) &&
                  MayPrepareRecovery(Abs(), Ticket(contract.value.plan, slot), env);
      if prepared {
        var t := Ticket(contract.value.plan, slot);
        var stale := Stale(Abs(), t, env);
        var count := Recoveries(Abs(), t) + 1;
        var agent := work[t].agent;
        var text := if stale then ReassessText else RecoverText(count);
        var payload := Payload(if agent.Some? then CallKind.Send else Spawn, agent, t, text);
        var seen := if stale then Fingerprint(Ground(Abs(), t, env), reports[t].dependencies) else map[];
        requests := requests[t := Request(count, payload, t.plan, observed[t].call, observed[t].epoch, stale, seen)];
      }
    }

    // ---------- rounds ----------

    static method NewRows(plan: nat, tasks: seq<Task>) returns (rows: map<Ticket, Row>)
      requires |tasks| == SLOTS
      ensures rows == FreshRows(plan, tasks, SLOTS)
    {
      rows := map[];
      for i := 0 to SLOTS
        invariant rows == FreshRows(plan, tasks, i)
      {
        OneMoreRow(plan, tasks, i);
        rows := rows[Ticket(plan, i) := Row(tasks[i], Pending, None, false, None)];
      }
    }

    /** Crew._round: six pending rows under a fresh plan. */
    method BeginRound(c: Contract, tasks: seq<Task>)
      requires |tasks| == SLOTS
      modifies this`contract, this`plans, this`work
      ensures Abs() == NewRound(old(Abs()), c, tasks)
    {
      var rows := NewRows(plans, tasks);
      work := work + rows;
      contract := Some(c.(plan := plans));
      plans := plans + 1;
    }

    /** Crew.start: the terms are in order, and a fresh round of six begins with nothing under way. */
    method Start(revise: bool, terms: Terms, free: bool, env: Env) returns (started: bool)
      requires Valid()
      modifies this
      ensures Did(old(history), AtRound(StartCrew(revise, terms, free, env))) &&
              Abs() == Crew.Start(old(Abs()), revise, terms, free, env)
      ensures if started then Started(old(Abs()), Abs(), terms, env) else Abs() == old(Abs())
    {
      ghost var was := Abs();
      started := Agree(revise, terms, free, env);
      if started {
        StartOpensRound(others, history, was, revise, terms, free, env);
      }
      Record(was, AtRound(StartCrew(revise, terms, free, env)));
    }

    method Agree(revise: bool, terms: Terms, free: bool, env: Env) returns (started: bool)
      modifies this`contract, this`plans, this`work
      ensures started <==> MayStart(old(Abs()), revise, terms, free, env)
      ensures !started ==> Abs() == old(Abs())
      ensures Abs() == Crew.Start(old(Abs()), revise, terms, free, env)
    {
      started := TermsOk(terms, env.files) && Idle(Abs(), env) && Settled(Abs()) && (contract.None? ==> free) &&
                 (contract.Some? && contract.value.phase != COMPLETE ==> revise);
      if started {
        started := Validate(LensTasks(PlanLenses, terms.evidencePaths));
      }
      started := started && Fits(Agreed(terms), LensTasks(PlanLenses, terms.evidencePaths));
      if started {
        Restart(Agreed(terms), terms.evidencePaths);
      }
    }

    method Restart(c: Contract, evidence: seq<Paths.Path>)
      modifies this`contract, this`plans, this`work
      ensures Abs() == NewRound(Closed(old(Abs())), c, LensTasks(PlanLenses, evidence))
    {
      if contract.Some? {
        work := Closed(Abs()).work;
      }
      BeginRound(c, LensTasks(PlanLenses, evidence));
    }

    /** Crew.next: what waits for nothing any more is reserved, and nothing else; afterwards no two writers of the round
        have overlapping scopes. */
    method Next(failing: set<nat>, env: Env)
      requires Valid()
      modifies this
      ensures Did(old(history), AtRound(NextCrew(failing, env))) && Abs() == Crew.Next(old(Abs()), failing, env)
      ensures Exclusive(Abs()) && TakesTheReady(old(Abs()), Abs(), env)
    {
      ghost var was := Abs();
      ReserveAndPrepare(failing, env);
      ReadyIsReserved(others, history, was, failing, env);
      ScopesStayApart(others, history, was, AtRound(NextCrew(failing, env)));
      Record(was, AtRound(NextCrew(failing, env)));
    }

    /** Reserve what may run, in task order, against the list of occupied scopes; then prepare checkouts. */
    method ReserveAndPrepare(failing: set<nat>, env: Env)
      modifies this`work
      ensures Abs() == Crew.Next(old(Abs()), failing, env)
    {
      if contract.None? || !env.current || contract.value.phase == COMPLETE {
        return;
      }
      ReserveAll(MetSlots(Abs()));
      Prepare(failing);
    }

    method ReserveAll(met: set<nat>)
      requires contract.Some?
      modifies this`work
      ensures Abs() == ReserveFrom(old(Abs()), 0, met)
    {
      var occupied := Owned(Abs(), SLOTS);
      forall t ensures ClashesWith(t, occupied) <==> Contended(Abs(), t) {
        OwnedClashes(Abs(), SLOTS, t);
      }
      for slot := 0 to SLOTS
        invariant ReserveFrom(Abs(), slot, met) == ReserveFrom(old(Abs()), 0, met)
        invariant forall t :: ClashesWith(t, occupied) <==> Contended(Abs(), t)
      {
        occupied := ReserveRow(slot, met, occupied);
      }
    }

    /** One row: a pending task whose dependencies are met and, if it writes, whose scope is free. */
    method ReserveRow(slot: nat, met: set<nat>, occupied: seq<Task>) returns (grown: seq<Task>)
      requires contract.Some? && slot < SLOTS && forall t :: ClashesWith(t, occupied) <==> Contended(Abs(), t)
      modifies this`work
      ensures Abs() == ReserveSlot(old(Abs()), slot, met)
      ensures forall t :: ClashesWith(t, grown) <==> Contended(Abs(), t)
    {
      var ticket := Ticket(contract.value.plan, slot);
      grown := occupied;
      if ticket in work && work[ticket].stage == Pending && slot in met {
        var task := work[ticket].task;
        if task.kind != Implement || !ClashesWith(task, occupied) {
          ghost var was := Abs();
          work := work[ticket := work[ticket].(stage := Reserved)];
          grown := occupied + [task];
          forall t ensures ClashesWith(t, grown) <==> Contended(Abs(), t) {
            OneMoreOwner(was, Abs(), slot, t);
            OneMoreClash(t, occupied, task);
          }
        }
      }
    }

    method Prepare(failing: set<nat>)
      requires contract.Some?
      modifies this`work
      ensures Abs() == Prepared(old(Abs()), failing)
    {
      for slot := 0 to SLOTS
        invariant work == map t | t in old(work) ::
                    if t.plan == contract.value.plan && t.slot < slot then PrepareRow(old(work)[t], t.slot in failing)
                    else old(work)[t]
      {
        var ticket := Ticket(contract.value.plan, slot);
        if ticket in work {
          work := work[ticket := PrepareRow(work[ticket], slot in failing)];
        }
      }
    }

    // ---------- workers ----------

    /** Crew.join: the agent that joined is the one its slot is bound to, and no other slot has it. */
    method Join(a: Agent, t: Ticket, genuine: bool, env: Env) returns (joined: bool)
      requires Valid()
      modifies this
      ensures Did(old(history), ByWorker(JoinCrew(a, t, genuine, env))) &&
              Abs() == Crew.Join(old(Abs()), a, t, genuine, env)
      ensures if joined then Sits(Abs(), a, t) else Abs() == old(Abs())
    {
      ghost var was := Abs();
      joined := Admit(a, t, genuine, env);
      if joined {
        JoinSits(others, history, was, a, t, genuine, env);
      }
      Record(was, ByWorker(JoinCrew(a, t, genuine, env)));
    }

    method Admit(a: Agent, t: Ticket, genuine: bool, env: Env) returns (joined: bool)
      modifies this`work, this`metas, this`members
      ensures joined <==> MayJoin(old(Abs()), a, t, genuine, env)
      ensures !joined ==> Abs() == old(Abs())
      ensures Abs() == Crew.Join(old(Abs()), a, t, genuine, env)
    {
      joined := MayJoin(Abs(), a, t, genuine, env);
      if joined {
        work := work[t := work[t].(stage := Running, agent := Some(a))];
        metas := metas[a := Meta(t, contract.value.round)];
        members := members[t.slot := members[t.slot].(worker := true)];
      }
    }

    /** Crew.report: what is on record is what was submitted, and replaces an earlier report of the same ticket; in
        review it cites the frozen artifact. */
    method Submit(a: Agent, d: Draft, env: Env) returns (recorded: bool)
      requires Valid()
      modifies this
      ensures Did(old(history), ByWorker(SubmitReport(a, d, env))) && Abs() == Crew.Submit(old(Abs()), a, d, env)
      ensures if recorded then OnTheArtifact(Abs(), a) && OnRecord(Abs(), a, d) && old(log) < log
              else Abs() == old(Abs())
    {
      ghost var was := Abs();
      recorded := File(a, d, env);
      if recorded {
        ReportRecorded(others, history, was, a, d, env);
      }
      Record(was, ByWorker(SubmitReport(a, d, env)));
    }

    method File(a: Agent, d: Draft, env: Env) returns (recorded: bool)
      modifies this`reports, this`log
      ensures recorded <==> MayReport(old(Abs()), a, d, env)
      ensures !recorded ==> Abs() == old(Abs())
      ensures Abs() == Crew.Submit(old(Abs()), a, d, env)
      ensures recorded ==> old(log) < log
    {
      recorded := MayReport(Abs(), a, d, env);
      if recorded {
        var t := metas[a].ticket;
        var report := Written(d, a, contract.value.round, Scopes(work[t]), Ground(Abs(), t, env));
        reports := reports[t := report];
        log := log + [Reported(t, report, Fingerprint(env.files, contract.value.reviewPaths))];
      }
    }

    /** Team.returned, for the ticket the worker joined last: nothing of another ticket moves, and no call of it is
        left. */
    method HandBack(a: Agent, status: Status)
      requires Valid()
      modifies this
      ensures Did(old(history), ByWorker(Return(a, status))) && Abs() == Crew.HandBack(old(Abs()), a, status)
      ensures HandsBackOnly(old(Abs()), Abs(), a)
    {
      ghost var was := Abs();
      TakeBack(a, status);
      HandBackTouches(others, history, was, a, status);
      Record(was, ByWorker(Return(a, status)));
    }

    method TakeBack(a: Agent, status: Status)
      modifies this`work, this`dispatches
      ensures Abs() == Crew.HandBack(old(Abs()), a, status)
    {
      if a in metas && metas[a].ticket in work && Occupies(work[metas[a].ticket].stage) {
        var t := metas[a].ticket;
        work := work[t := work[t].(stage := Returned, result := Some(Handback(status, Some(a), false)))];
        dispatches := SetCalls(dispatches, t, CallReturned);
      }
    }

    // ---------- single rows and reports ----------

    /** team-integrate: the patch that enters the root's checkout is the one its slot's own agent handed back as
        tested. */
    method Integrate(slot: nat, env: Env) returns (done: bool)
      requires Valid()
      modifies this
      ensures Did(old(history), ByRoot(IntegrateTask(slot, env))) && Abs() == Crew.Integrate(old(Abs()), slot, env)
      ensures if done then OwnPatch(Abs(), slot) && Exclusive(Abs()) else Abs() == old(Abs())
    {
      ghost var was := Abs();
      done := Merge(slot, env);
      if done {
        IntegratesOwnPatch(others, history, was, slot, env);
      }
      ScopesStayApart(others, history, was, ByRoot(IntegrateTask(slot, env)));
      Record(was, ByRoot(IntegrateTask(slot, env)));
    }

    method Merge(slot: nat, env: Env) returns (done: bool)
      modifies this`work, this`dispatches
      ensures Abs() == Crew.Integrate(old(Abs()), slot, env)
      ensures done <==> MayIntegrate(old(Abs()), slot, env)
      ensures !done ==> Abs() == old(Abs())
    {
      done := MayWrite(Abs(), env) && HasRow(Abs(), slot) && DetailsRead(Abs(), Ticket(contract.value.plan, slot));
      if done {
        var t := Ticket(contract.value.plan, slot);
        var row := work[t];
        done := row.stage == Returned && row.task.kind == Implement &&
                row.result.Some? && row.result.value.status == Status.Tested &&
                row.result.value.worker.Some? && row.result.value.worker.value in metas &&
                metas[row.result.value.worker.value].ticket == t;
        if done {
          work := work[t := row.(result := Some(row.result.value.(integrated := true)))];
          dispatches := SetCalls(dispatches, t, CallReturned);
        }
      }
    }

    /** team-accept: what is accepted was handed back as checked and, if it wrote, integrated; scopes stay exclusive. */
    method AcceptTask(slot: nat, env: Env) returns (done: bool)
      requires Valid()
      modifies this
      ensures Did(old(history), ByRoot(AcceptOne(slot, env))) && Abs() == Crew.AcceptTask(old(Abs()), slot, env)
      ensures if done then AcceptedWork(Abs(), slot) && Exclusive(Abs()) else Abs() == old(Abs())
    {
      ghost var was := Abs();
      done := Accept(slot, env);
      if done {
        AcceptsWork(others, history, was, slot, env);
      }
      ScopesStayApart(others, history, was, ByRoot(AcceptOne(slot, env)));
      Record(was, ByRoot(AcceptOne(slot, env)));
    }

    method Accept(slot: nat, env: Env) returns (done: bool)
      modifies this`work
      ensures Abs() == Crew.AcceptTask(old(Abs()), slot, env)
      ensures done <==> Abs() != old(Abs())
    {
      done := MayWrite(Abs(), env) && HasRow(Abs(), slot) && DetailsRead(Abs(), Ticket(contract.value.plan, slot));
      if done {
        var t := Ticket(contract.value.plan, slot);
        done := Acceptable(work[t]);
        if done {
          work := work[t := work[t].(stage := Accepted)];
          assert work[t] != old(work)[t];
        }
      }
    }

    /** Crew.deliver_reports: afterwards the details of these slots count as read, and nothing becomes unread. */
    method Deliver(slots: set<nat>)
      requires Valid()
      modifies this
      ensures Did(old(history), ByRoot(Crew.Deliver(slots))) && Abs() == ReadReports(old(Abs()), slots)
      ensures ReadNow(old(Abs()), Abs(), slots)
    {
      ghost var was := Abs();
      Mark(slots);
      DeliveryIsRead(was, slots);
      Record(was, ByRoot(Crew.Deliver(slots)));
    }

    method Mark(slots: set<nat>)
      modifies this`delivered
      ensures Abs() == ReadReports(old(Abs()), slots)
    {
      if contract.Some? {
        delivered := delivered + ReportsOf(Abs(), slots);
      }
    }

    // ---------- phase transitions ----------

    /** Crew._returned: the loop over the six rows stops at the first that is not settled as asked. */
    method CheckReturned(clear: bool, repairing: bool, env: Env) returns (ok: bool)
      requires contract.Some?
      ensures ok <==> AllReturned(Abs(), clear, repairing, env)
    {
      if !Idle(Abs(), env) || !AllBound(Abs()) {
        return false;
      }
      for i := 0 to SLOTS
        invariant forall k | 0 <= k < i :: HasRow(Abs(), k) && DetailsRead(Abs(), Now(Abs(), k))
      {
        if !HasRow(Abs(), i) || !DetailsRead(Abs(), Ticket(contract.value.plan, i)) {
          return false;
        }
      }
      for i := 0 to SLOTS
        invariant forall k | 0 <= k < i :: RowSettled(Abs(), k, clear, repairing, env)
      {
        if !RowSettled(Abs(), i, clear, repairing, env) {
          return false;
        }
      }
      ok := true;
    }

    /** Crew._accept_round */
    method AcceptAll(repairing: bool)
      requires contract.Some?
      modifies this`work
      ensures Abs() == AcceptRound(old(Abs()), repairing)
    {
      for slot := 0 to SLOTS
        invariant work == map t | t in old(work) ::
                    if t.plan == contract.value.plan && t.slot < slot then Settle(old(Abs()), t, repairing)
                    else old(work)[t]
      {
        var ticket := Ticket(contract.value.plan, slot);
        if ticket in work {
          work := work[ticket := Settle(Abs(), ticket, repairing)];
        }
      }
    }

    /** Crew.execute: an admissible plan of six replaces a round that is over. */
    method Execute(repair: bool, decision: string, tasks: seq<Task>, env: Env) returns (done: bool)
      requires Valid()
      modifies this
      ensures Did(old(history), AtRound(ExecuteCrew(repair, decision, tasks, env))) &&
              Abs() == Crew.Execute(old(Abs()), repair, decision, tasks, env)
      ensures if done then Advanced(old(Abs()), Abs(), tasks) else Abs() == old(Abs())
    {
      ghost var was := Abs();
      done := Advance(repair, decision, tasks, env);
      if done {
        ExecuteOpensRound(others, history, was, repair, decision, tasks, env);
      }
      Record(was, AtRound(ExecuteCrew(repair, decision, tasks, env)));
    }

    method Advance(repair: bool, decision: string, tasks: seq<Task>, env: Env) returns (done: bool)
      modifies this`contract, this`plans, this`work
      ensures done <==> MayExecute(old(Abs()), repair, decision, tasks, env)
      ensures !done ==> Abs() == old(Abs())
      ensures Abs() == Crew.Execute(old(Abs()), repair, decision, tasks, env)
    {
      done := MayAdvance(repair, decision, tasks, env);
      if done {
        AcceptAll(repair);
        BeginRound(Executing(contract.value, decision), tasks);
      }
    }

    method MayAdvance(repair: bool, decision: string, tasks: seq<Task>, env: Env) returns (ok: bool)
      ensures ok <==> MayExecute(Abs(), repair, decision, tasks, env)
    {
      ok := contract.Some? && env.current && Assigned(contract.value, tasks) &&
            (if repair then contract.value.phase in {EXECUTE, REVIEW} else contract.value.phase == PLAN);
      if ok {
        ok := Validate(tasks);
      }
      if ok {
        ok := CheckReturned(false, repair, env);
      }
      ok := ok && Decision(decision) && Fits(Executing(contract.value, decision), tasks);
    }

    /** Crew.review: six inspections begin of an artifact that the root's checks passed on. */
    method Review(decision: string, order: seq<Paths.Path>, env: Env) returns (done: bool)
      requires Valid()
      modifies this
      ensures Did(old(history), AtRound(ReviewCrew(decision, order, env))) &&
              Abs() == Crew.Review(old(Abs()), decision, order, env)
      ensures if done then Inspected(old(Abs()), Abs(), order) else Abs() == old(Abs())
    {
      ghost var was := Abs();
      done := Inspect(decision, order, env);
      if done {
        ReviewIsOpened(others, history, was, decision, order, env);
      }
      Record(was, AtRound(ReviewCrew(decision, order, env)));
    }

    method Inspect(decision: string, order: seq<Paths.Path>, env: Env) returns (done: bool)
      modifies this`contract, this`plans, this`work, this`log
      ensures done <==> MayReview(old(Abs()), decision, order, env)
      ensures !done ==> Abs() == old(Abs())
      ensures Abs() == Crew.Review(old(Abs()), decision, order, env)
    {
      done := CheckReview(decision, order, env);
      if done {
        Freeze(decision, order, env);
      }
    }

    method CheckReview(decision: string, order: seq<Paths.Path>, env: Env) returns (ok: bool)
      ensures ok <==> MayReview(Abs(), decision, order, env)
    {
      ok := contract.Some? && env.current && contract.value.phase in {EXECUTE, REVIEW} &&
            RootEvidence(contract.value, env, false) && !ReviewStands(Abs(), env);
      if ok {
        ok := CheckReturned(false, false, env);
      }
      if ok {
        var paths := ReviewPaths(contract.value, env.evidence.ledger.task.value);
        ok := Validate(LensTasks(ReviewLenses, order));
        ok := ok && (forall p | p in order :: p in paths) && (forall p | p in paths :: p in order);
        ok := ok && Decision(decision) && Fits(Frozen(contract.value, decision, env), LensTasks(ReviewLenses, order));
      }
    }

    /** The fingerprint is taken before the round is accepted, and frozen into the next contract. */
    method Freeze(decision: string, order: seq<Paths.Path>, env: Env)
      requires contract.Some? && env.evidence.ledger.task.Some?
      modifies this`contract, this`plans, this`work, this`log
      ensures Abs() == OpenReview(old(Abs()), decision, order, env)
    {
      var terms := Frozen(contract.value, decision, env);
      var reviewed := Reviewed(plans, terms.reviewPaths, terms.snapshot, env.evidence.ledger, Checks(env));
      AcceptAll(false);
      BeginRound(terms, LensTasks(ReviewLenses, order));
      log := log + [reviewed];
    }

    /** Crew.complete: a crew that completes has a certificate. */
    method Complete(decision: string, env: Env) returns (done: bool)
      requires Valid()
      modifies this
      ensures Did(old(history), AtRound(CompleteCrew(decision, env))) && Abs() == Finish(old(Abs()), decision, env)
      ensures if done then CertifiedAs(Abs()) else Abs() == old(Abs())
    {
      ghost var was := Abs();
      done := Conclude(decision, env);
      if done {
        CompletionIsCertified(others, history, was, decision, env);
      }
      Record(was, AtRound(CompleteCrew(decision, env)));
    }

    method Conclude(decision: string, env: Env) returns (done: bool)
      modifies this`contract, this`work, this`log
      ensures done <==> MayFinish(old(Abs()), decision, env)
      ensures !done ==> Abs() == old(Abs())
      ensures Abs() == Finish(old(Abs()), decision, env)
    {
      done := contract.Some? && env.current && Decision(decision) && contract.value.phase == REVIEW;
      if done {
        done := CheckReturned(true, false, env);
        done := done && RootEvidence(contract.value, env, true) &&
                env.evidence.ledger.task == contract.value.reviewTask &&
                Fingerprint(env.files, contract.value.reviewPaths) == contract.value.snapshot;
      }
      if done {
        log := log + [Certificate(Abs(), env)];
        AcceptAll(false);
        contract := Some(contract.value.(phase := COMPLETE, decision := Some(decision)));
      }
    }

    // ---------- commands ----------

    method CarryHost(h: HostCommand)
      modifies this`members, this`foreign, this`work, this`dispatches, this`rejected, this`retried, this`recoveries,
               this`reports
      ensures Abs() == ApplyHost(old(Abs()), h)
    {
      var taken: bool;
      match h
      case PreCall(call, p, env) => taken := Send(call, p, env);
      case PostCall(call, answer) => Acknowledge(call, answer);
      case ForeignBinding(a) => Yield(a);
      case Reconcile(call, receipt) => Hear(call, receipt);
      case RetryNative(slot, env) => taken := Grant(slot, env);
    }

    method CarryWait(w: WaitCommand)
      modifies this`work, this`dispatches, this`waits, this`observed, this`requests
      ensures Abs() == ApplyWait(old(Abs()), w)
    {
      var taken: bool;
      match w
      case PreWaiting(call, targets, env) => taken := Issue(call, targets, env);
      case PostWaiting(call, r) => Listen(call, r);
      case Recover(slot, env) => taken := Draw(slot, env);
    }

    method CarryWorker(k: WorkerCommand)
      modifies this`members, this`work, this`dispatches, this`metas, this`reports, this`log
      ensures Abs() == ApplyWorker(old(Abs()), k)
    {
      var taken: bool;
      match k
      case JoinCrew(a, t, genuine, env) => taken := Admit(a, t, genuine, env);
      case SubmitReport(a, d, env) => taken := File(a, d, env);
      case Return(a, status) => TakeBack(a, status);
    }

    method CarryRoot(r: RootCommand)
      modifies this`work, this`dispatches, this`delivered
      ensures Abs() == ApplyRoot(old(Abs()), r)
    {
      var taken: bool;
      match r
      case IntegrateTask(slot, env) => taken := Merge(slot, env);
      case AcceptOne(slot, env) => taken := Accept(slot, env);
      case Deliver(slots) => Mark(slots);
    }

    method CarryRound(n: RoundCommand)
      modifies this`contract, this`plans, this`work, this`log
      ensures Abs() == ApplyRound(old(Abs()), n)
    {
      var taken: bool;
      match n
      case StartCrew(revise, terms, free, env) => taken := Agree(revise, terms, free, env);
      case NextCrew(failing, env) => ReserveAndPrepare(failing, env);
      case ExecuteCrew(repair, decision, tasks, env) => taken := Advance(repair, decision, tasks, env);
      case ReviewCrew(decision, order, env) => taken := Inspect(decision, order, env);
      case CompleteCrew(decision, env) => taken := Conclude(decision, env);
    }

    /** What a command does to the tables, whatever else shares them. */
    method Carry(c: Command)
      modifies this`contract, this`plans, this`members, this`foreign, this`work, this`dispatches, this`rejected,
               this`retried, this`waits, this`observed, this`requests, this`recoveries, this`metas, this`reports,
               this`delivered, this`log
      ensures Abs() == Apply(old(Abs()), c)
    {
      match c
      case AtHost(h) => CarryHost(h);
      case AtWait(w) => CarryWait(w);
      case ByWorker(k) => CarryWorker(k);
      case ByRoot(r) => CarryRoot(r);
      case AtRound(n) => CarryRound(n);
    }

    /** A hook or command line reaches the crew: whatever came before, all that is promised of a run holds
        afterwards. */
    method Handle(c: Command)
      requires Valid()
      modifies this
      ensures Did(old(history), c) && Abs() == Apply(old(Abs()), c) && Sound(Abs())
    {
      ghost var was := Abs();
      Carry(c);
      Record(was, c);
      LeadsIsSound(others, history, Abs());
    }
  }
}
