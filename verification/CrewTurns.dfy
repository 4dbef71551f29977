/** A handback carries no identity of the turn it ends: it speaks for whatever ticket its agent joined last. When it
    belongs to the present dispatch, and what it does when it does not. */
module CrewTurns {
  import opened Wrappers
  import opened Work
  import opened Crew
  import opened CrewInv
  import opened CrewCalls
  import opened CrewWaits
  import CrewProgress

  /** Only the last dispatch of a ticket can still be open. */
  ghost predicate LiveIsLast(ds: seq<Dispatch>) {
    forall i, j | 0 <= i < j < |ds| && ds[i].payload.ticket == ds[j].payload.ticket :: !Outstanding(ds[i].state)
  }

  /** Calls are added open. */
  ghost predicate AddsLive(s: State, r: State) {
    forall i | |s.dispatches| <= i < |r.dispatches| :: Outstanding(r.dispatches[i].state)
  }

  lemma AnswerAddsNone(s: State, call: CallId, answer: Answer)
    ensures |PostDispatch(s, call, answer).dispatches| == |s.dispatches|
  {
    var r := PostDispatch(s, call, answer);
    var i := FindCall(s.dispatches, call);
    if i.Some? {
      assert r.dispatches == s.dispatches || exists state :: r.dispatches == SetCall(s.dispatches, i.value, state);
    }
  }

  lemma RefusalAddsNone(s: State, call: CallId)
    ensures |Refuse(s, call).dispatches| == |s.dispatches|
  {
  }

  lemma ReconcileAddsNone(s: State, call: CallId, receipt: Receipt)
    ensures |Reconciled(s, call, receipt).dispatches| == |s.dispatches|
  {
    RefusalAddsNone(s, call);
    if Heard(receipt).Receipt? {
      AnswerAddsNone(s, call, receipt.decode(Heard(receipt).output).answer);
    }
  }

  lemma DispatchAddsLive(s: State, call: CallId, p: Payload, env: Env)
    ensures AddsLive(s, PreDispatch(s, call, p, env))
  {
  }

  lemma HostAddsLive(s: State, h: HostCommand)
    ensures AddsLive(s, ApplyHost(s, h))
  {
    match h
    case PreCall(call, p, env) => DispatchAddsLive(s, call, p, env);
    case PostCall(call, answer) => AnswerAddsNone(s, call, answer);
    case ForeignBinding(_) =>
    case Reconcile(call, receipt) => ReconcileAddsNone(s, call, receipt);
    case RetryNative(_, _) =>
  }

  lemma WaitAddsLive(s: State, w: WaitCommand)
    ensures AddsLive(s, ApplyWait(s, w))
  {
    if w.PostWaiting? && w.call in s.waits && w.result.statuses.Some? {
      ObserveAllKeepsCalls(s, w.call, s.waits[w.call], |w.result.statuses.value| == 1, w.result.statuses.value);
    }
  }

  lemma WorkerAddsNone(s: State, k: WorkerCommand)
    ensures |ApplyWorker(s, k).dispatches| == |s.dispatches|
  {
  }

  lemma RootAddsNone(s: State, r: RootCommand)
    ensures |ApplyRoot(s, r).dispatches| == |s.dispatches|
  {
  }

  lemma RoundAddsNone(s: State, n: RoundCommand)
    ensures ApplyRound(s, n).dispatches == s.dispatches
  {
  }

  lemma CommandAddsLive(s: State, c: Command)
    ensures AddsLive(s, Apply(s, c))
  {
    match c
    case AtHost(h) => HostAddsLive(s, h);
    case AtWait(w) => WaitAddsLive(s, w);
    case ByWorker(k) => WorkerAddsNone(s, k);
    case ByRoot(r) => RootAddsNone(s, r);
    case AtRound(n) => RoundAddsNone(s, n);
  }

  lemma LiveStaysLast(s: State, r: State)
    requires LiveIsLast(s.dispatches) && KeepsCalls(s.dispatches, r.dispatches)
    requires AddsLive(s, r) && SingleLive(r.dispatches)
    ensures LiveIsLast(r.dispatches)
  {
  }

  lemma {:induction false} RunKeepsLiveLast(s: State, cs: seq<Command>)
    requires Inv(s) && LiveIsLast(s.dispatches)
    ensures Inv(Run(s, cs)) && LiveIsLast(Run(s, cs).dispatches) && KeepsCalls(s.dispatches, Run(s, cs).dispatches)
    decreases |cs|
  {
    if cs != [] {
      var m := Apply(s, cs[0]);
      ApplyKeeps(s, cs[0]);
      CommandKeepsCalls(s, cs[0]);
      CommandAddsLive(s, cs[0]);
      LiveStaysLast(s, m);
      RunKeepsLiveLast(m, cs[1..]);
    }
  }

  /** The stop is taken: the agent's last ticket is still reserved, running or returned. */
  predicate Taken(s: State, a: Agent) {
    a in s.metas && s.metas[a].ticket in s.work && Occupies(s.work[s.metas[a].ticket].stage)
  }

  /** The stop of a turn that began in s closes a call that was asked only since. */
  ghost predicate Withdraws(s: State, now: State, a: Agent, status: Status) {
    exists i :: |s.dispatches| <= i < |now.dispatches| && Outstanding(now.dispatches[i].state) &&
                i < |HandBack(now, a, status).dispatches| && !Outstanding(HandBack(now, a, status).dispatches[i].state)
  }

  /** The ticket has an open call that was asked only since. */
  ghost predicate Newer(s: State, now: State, t: Ticket) {
    exists i :: |s.dispatches| <= i < |now.dispatches| && Outstanding(now.dispatches[i].state) &&
                now.dispatches[i].payload.ticket == t
  }

  lemma NewerIsEpoch(s: State, now: State, t: Ticket)
    requires KeepsCalls(s.dispatches, now.dispatches) && LiveIsLast(now.dispatches)
    ensures Newer(s, now, t) <==> TicketLive(now, t) && Epoch(now.dispatches, t) != Epoch(s.dispatches, t)
  {
    EpochNeverReturns(s.dispatches, now.dispatches, t);
    if TicketLive(now, t) && Epoch(now.dispatches, t) != Epoch(s.dispatches, t) {
      var i :| 0 <= i < |now.dispatches| && now.dispatches[i].payload.ticket == t &&
               Outstanding(now.dispatches[i].state);
      var j :| |s.dispatches| <= j < |now.dispatches| && now.dispatches[j].payload.ticket == t;
      assert j <= i;
    }
  }

  lemma HandbackCloses(s: State, now: State, a: Agent, status: Status)
    ensures Withdraws(s, now, a, status) <==> Taken(now, a) && Newer(s, now, now.metas[a].ticket)
  {
    var r := HandBack(now, a, status);
    if Taken(now, a) {
      var t := now.metas[a].ticket;
      assert r.dispatches == SetCalls(now.dispatches, t, CallReturned);
      assert forall i | 0 <= i < |now.dispatches| ::
          r.dispatches[i] == if now.dispatches[i].payload.ticket == t then now.dispatches[i].(state := CallReturned)
                             else now.dispatches[i];
    } else {
      assert r == now;
    }
  }

  /** The stop is taken for a ticket with an open call, and its dispatches are not those the turn began with. */
  predicate Belated(s: State, now: State, a: Agent) {
    Taken(now, a) &&
    var t := now.metas[a].ticket;
    TicketLive(now, t) && Epoch(now.dispatches, t) != Epoch(s.dispatches, t)
  }

  lemma BelatedIsExact(s: State, now: State, a: Agent, status: Status)
    requires KeepsCalls(s.dispatches, now.dispatches) && LiveIsLast(now.dispatches)
    ensures Withdraws(s, now, a, status) <==> Belated(s, now, a)
  {
    HandbackCloses(s, now, a, status);
    if Taken(now, a) {
      NewerIsEpoch(s, now, now.metas[a].ticket);
    }
  }

  /** A turn began in a reachable state, and its stop arrives after any commands. It closes a call of a later turn if
      and only if it is belated: a handback belongs to the present dispatch as long as the epoch is the one of its
      turn. */
  lemma HandbackIsExact(foreign: set<Agent>, before: seq<Command>, between: seq<Command>, a: Agent, status: Status)
    ensures var s := Run(Initial(foreign), before);
            var now := Run(s, between);
            Withdraws(s, now, a, status) <==> Belated(s, now, a)
  {
    var s := Run(Initial(foreign), before);
    InitialInv(foreign);
    RunKeepsLiveLast(Initial(foreign), before);
    RunKeepsLiveLast(s, between);
    BelatedIsExact(s, Run(s, between), a, status);
  }

  /** The turn of the call is over before it began: its answer is ignored and its agent cannot join. */
  ghost predicate Withdrawn(s: State, t: Ticket, call: CallId, a: Agent) {
    && t in s.work && s.work[t].stage == Returned && !TicketLive(s, t)
    && (forall answer :: PostDispatch(s, call, answer) == s)
    && (forall genuine, env :: Join(s, a, t, genuine, env) == s)
  }

  lemma StopWithdraws(s: State, i: nat, a: Agent, status: Status)
    requires i < |s.dispatches| && UniqueCalls(s.dispatches) && Taken(s, a)
    requires s.dispatches[i].payload.ticket == s.metas[a].ticket
    ensures var r := HandBack(s, a, status);
            Withdrawn(r, s.metas[a].ticket, s.dispatches[i].call, a) && r.recoveries == s.recoveries
  {
    var t := s.metas[a].ticket;
    var r := HandBack(s, a, status);
    assert r.dispatches == SetCalls(s.dispatches, t, CallReturned);
    CrewProgress.FindTheCall(r.dispatches, i);
  }

  /** The stop of the earlier turn arrives after a recovery of it was sent: the recovery is spent for nothing. */
  lemma EarlierStopSpendsRecovery(s: State, slot: nat, a: Agent, call: CallId, status: Status, env: Env)
    requires Inv(s) && Ready(s, env) && s.contract.value.phase != COMPLETE && HasRow(s, slot)
    requires MayPrepareRecovery(s, Now(s, slot), env)
    requires var row := s.work[Now(s, slot)]; row.agent == Some(a) && (row.task.kind == Implement ==> row.workspace)
    requires Now(s, slot) !in s.rejected && FindCall(s.dispatches, call).None?
    requires a in s.metas && s.metas[a].ticket == Now(s, slot)
    ensures var t := Now(s, slot);
            var z := PrepareRecovery(s, slot, env);
            t in z.requests &&
            var sent := PreDispatch(z, call, z.requests[t].payload, env);
            var r := HandBack(sent, a, status);
            TicketLive(sent, t) && Withdrawn(r, t, call, a) && Recoveries(r, t) == Recoveries(s, t) + 1
  {
    var t, n := Now(s, slot), |s.dispatches|;
    var z := PrepareRecovery(s, slot, env);
    var sent := PreDispatch(z, call, z.requests[t].payload, env);
    CrewProgress.RecoveryIsHonoured(s, slot, env, call);
    RecoverKeeps(s, slot, env);
    DispatchKeeps(z, call, z.requests[t].payload, env);
    assert sent.dispatches[n].payload.ticket == t && sent.dispatches[n].call == call &&
           Outstanding(sent.dispatches[n].state);
    StopWithdraws(sent, n, a, status);
  }
}
