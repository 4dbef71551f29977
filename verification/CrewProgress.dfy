/** What the guards of the fixed crew leave possible: refused spawns can be retried, fresh observations count, prepared
    recoveries are honoured, and only as often as allowed. */
module CrewProgress {
  import opened Wrappers
  import opened Work
  import opened Crew
  import opened CrewInv

  /** The call that spawns an agent for a ticket. */
  function SpawnFor(t: Ticket, body: string): Payload {
    Payload(Spawn, None, t, Assignment(body))
  }

  ghost predicate Spawnable(s: State, t: Ticket) {
    t in s.work && s.work[t].stage == Reserved && s.work[t].agent.None? &&
    (s.work[t].task.kind == Implement ==> s.work[t].workspace)
  }

  lemma FindTheCall(ds: seq<Dispatch>, i: nat)
    requires UniqueCalls(ds) && i < |ds|
    ensures FindCall(ds, ds[i].call) == Some(i)
  {
  }

  /** A proven refusal blocks its ticket until the retry, and the retry opens it again. */
  lemma RefusalThenRetry(s: State, i: nat, receipt: Receipt, env: Env, body: string)
    requires i < |s.dispatches| && ProvesRefusal(receipt, s.dispatches[i].call)
    requires Inv(s) && Answerable(s, i) && Ready(s, env) && s.contract.value.phase != COMPLETE
    requires var t := s.dispatches[i].payload.ticket;
             s.dispatches[i].payload.kind == Spawn && s.members[t.slot].agent.None? && Spawnable(s, t)
    ensures var d := s.dispatches[i];
            var refused := Reconciled(s, d.call, receipt);
            var retried := Retry(refused, d.payload.ticket.slot, env);
            && d.payload.ticket in refused.rejected && !MayDispatch(refused, SpawnFor(d.payload.ticket, body), env)
            && d.call in retried.retried && MayDispatch(retried, SpawnFor(d.payload.ticket, body), env)
  {
    var d := s.dispatches[i];
    var t := d.payload.ticket;
    FindTheCall(s.dispatches, i);
    var refused := Reconciled(s, d.call, receipt);
    assert refused == Refuse(s, d.call);
    assert Now(refused, t.slot) == t;
    assert !TicketLive(refused, t);
    var retried := Retry(refused, t.slot, env);
    assert retried == refused.(retried := refused.retried + {d.call}, rejected := refused.rejected - {t});
    assert !TicketLive(retried, t);
  }

  lemma LandCloses(s: State, t: Ticket, stage: Stage)
    requires t in s.work
    ensures var r := Land(s, t, stage); t in r.work && r.work[t].stage == stage && !TicketLive(r, t)
  {
  }

  lemma CompletionCounts(s: State, call: CallId, w: Wait, a: Agent)
    requires a in w.snapshot && Counts(s, w, a)
    ensures var t := w.snapshot[a].ticket;
            var r := Observe(s, call, w, a, Completed);
            && t in r.observed && r.observed[t].state == Completed && r.observed[t].epoch == w.snapshot[a].epoch
            && t in r.work
            && (if Active(s.work[t].stage) then r.work[t].stage == Returned && !TicketLive(r, t)
                else r.work[t] == s.work[t])
  {
    var noted := Noted(s, call, w, a, Completed);
    LandCloses(noted, w.snapshot[a].ticket, Returned);
    if Active(s.work[w.snapshot[a].ticket].stage) {
      assert Observe(s, call, w, a, Completed) == Land(noted, w.snapshot[a].ticket, Returned);
    } else {
      assert Observe(s, call, w, a, Completed) == noted;
    }
  }

  lemma OneStatus(s: State, call: CallId, a: Agent, status: Native, timedOut: bool)
    requires call in s.waits && s.waits[call].result.None? && a in s.waits[call].snapshot
    requires s.contract.Some? && s.contract.value.plan == s.waits[call].plan
    ensures var w := s.waits[call];
            var seen := Observe(s, call, w, a, status);
            var result := WaitResult(false, Some([(a, Some(status))]), timedOut);
            PostWait(s, call, result) == seen.(waits := s.waits[call := w.(result := Some(result))])
  {
    var w := s.waits[call];
    var statuses := [(a, Some(status))];
    var seen := Observe(s, call, w, a, status);
    assert statuses[1..] == [];
    assert ObserveAll(s, call, w, true, statuses) == ObserveAll(seen, call, w, true, []);
  }

  /** A completed status of an active row under the present dispatches returns it and closes its dispatches; for a row
      that already ended it is only noted. */
  lemma FreshCompletionLands(s: State, call: CallId, a: Agent, timedOut: bool)
    requires call in s.waits && s.waits[call].result.None? && a in s.waits[call].snapshot && Counts(s, s.waits[call], a)
    requires s.contract.Some? && s.contract.value.plan == s.waits[call].plan
    ensures var t := s.waits[call].snapshot[a].ticket;
            var r := PostWait(s, call, WaitResult(false, Some([(a, Some(Completed))]), timedOut));
            && t in r.observed && r.observed[t].state == Completed && r.observed[t].epoch == Epoch(s.dispatches, t)
            && t in r.work
            && (if Active(s.work[t].stage) then r.work[t].stage == Returned && !TicketLive(r, t)
                else r.work[t] == s.work[t])
  {
    CompletionCounts(s, call, s.waits[call], a);
    OneStatus(s, call, a, Completed, timedOut);
  }

  /** A prepared recovery is honoured while nothing changed: the row is reserved again for its own agent, the count goes
      up by one, and a stale report is withdrawn. */
  lemma RecoveryIsHonoured(s: State, slot: nat, env: Env, call: CallId)
    requires Inv(s) && Ready(s, env) && s.contract.value.phase != COMPLETE && HasRow(s, slot)
    requires MayPrepareRecovery(s, Now(s, slot), env)
    requires var row := s.work[Now(s, slot)]; row.agent.Some? && (row.task.kind == Implement ==> row.workspace)
    requires Now(s, slot) !in s.rejected && FindCall(s.dispatches, call).None?
    ensures var t := Now(s, slot);
            var z := PrepareRecovery(s, slot, env);
            var r := PreDispatch(z, call, z.requests[t].payload, env);
            && t in z.requests && |r.dispatches| == |s.dispatches| + 1
            && r.work[t].stage == Reserved && r.work[t].agent == s.work[t].agent
            && Recoveries(r, t) == Recoveries(s, t) + 1 && (t in r.reports <==> t in s.reports && !Stale(s, t, env))
  {
    var t := Now(s, slot);
    var z := PrepareRecovery(s, slot, env);
    var p := z.requests[t].payload;
    assert !TicketLive(s, t);
    PreparedMayRecover(s, slot, env);
    assert MayDispatch(z, p, env);
  }

  lemma PreparedMayRecover(s: State, slot: nat, env: Env)
    requires Ready(s, env) && HasRow(s, slot) && MayPrepareRecovery(s, Now(s, slot), env) &&
             s.work[Now(s, slot)].agent.Some?
    ensures var z := PrepareRecovery(s, slot, env);
            Now(s, slot) in z.requests && MayRecover(z, z.requests[Now(s, slot)].payload, env)
  {
  }
}
