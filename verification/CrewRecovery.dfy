/** Recovery of a handback that shows no checked work: when it is prepared, what is asked of the agent, and when the
    dispatch of it goes through. */
module CrewRecovery {
  import opened Files
  import opened Wrappers
  import opened Work
  import opened Crew
  import opened CrewReports
  import opened CrewAnswers

  // ---------- when ----------

  /** The agent was last seen completed, under the dispatches the ticket has now. */
  ghost predicate SeenCompleted(s: State, t: Ticket) {
    t in s.observed && s.observed[t].state == Completed && s.observed[t].plan == t.plan &&
    s.observed[t].epoch == Epoch(s.dispatches, t)
  }

  /** The ticket has a blocked report, and what it rested on has changed in the files. */
  ghost predicate BlockedOn(s: State, t: Ticket, files: Files) {
    t in s.reports && s.reports[t].verdict == BlockedReport &&
    s.reports[t].sources != Fingerprint(files, s.reports[t].dependencies)
  }

  /** The handback says nothing that stands: neither partial nor blocked, nor a blocked report, nor a report along with
      checked work. */
  ghost predicate SaysNothing(s: State, t: Ticket)
    requires t in s.work
  {
    match s.work[t].result
    case None => !(t in s.reports && s.reports[t].verdict == BlockedReport)
    case Some(h) =>
      && h.status != Status.Partial && h.status != Status.Blocked
      && (t in s.reports ==> s.reports[t].verdict != BlockedReport && h.status != Status.Analysis &&
                             h.status != Status.Tested)
  }

  /** Two recoveries at most; recoveries counts those already dispatched. */
  ghost predicate RecoveryLeft(s: State, t: Ticket) {
    t !in s.recoveries || s.recoveries[t] < 2
  }

  /** A recovery of the slot is prepared in the current round. */
  ghost predicate Preparable(s: State, slot: nat, env: Env, files: Files) {
    && s.contract.Some? && env.current && slot < 6
    && var t := Ticket(s.contract.value.plan, slot);
       && t in s.work && s.work[t].stage == Returned && SeenCompleted(s, t) && RecoveryLeft(s, t)
       && (SaysNothing(s, t) || (s.contract.value.phase != REVIEW && BlockedOn(s, t, files)))
  }

  /** What is asked: to judge again, if what a blocked report rested on has changed, and else to go on, with the number
      of the attempt; the bound agent is sent it, and the state of everything it depends on is kept. */
  ghost predicate Asks(s: State, t: Ticket, files: Files, r: Request) {
    && t in s.work && s.contract.Some? && t in s.observed
    && var again := s.contract.value.phase != REVIEW && BlockedOn(s, t, files);
       && r.count == (if t in s.recoveries then s.recoveries[t] else 0) + 1 && r.plan == t.plan
       && r.call == s.observed[t].call && r.epoch == Epoch(s.dispatches, t) && (r.reassess <==> again)
       && r.payload.ticket == t && r.payload.target == s.work[t].agent
       && r.payload.kind == (if s.work[t].agent.Some? then Send else Spawn)
       && r.payload.text == (if again then ReassessText else RecoverText(r.count))
       && (again ==> r.seen == Fingerprint(files, s.reports[t].dependencies))
  }

  lemma WhenPrepared(s: State, slot: nat, env: Env, files: Files)
    requires |s.members| == SLOTS && Ready(s, env) && slot < SLOTS && WorksOn(s, Now(s, slot), env, files)
    ensures Preparable(s, slot, env, files) <==> MayPrepareRecovery(s, Now(s, slot), env)
  {
  }

  /** A recovery is prepared exactly then, and only the request of that ticket is added or replaced. */
  lemma RecoveryIsPrepared(s: State, slot: nat, env: Env, files: Files)
    requires |s.members| == SLOTS
    requires s.contract.Some? && Ticket(s.contract.value.plan, slot) in s.work ==>
               WorksOn(s, Ticket(s.contract.value.plan, slot), env, files)
    ensures var z := ApplyWait(s, Recover(slot, env));
            if Preparable(s, slot, env, files) then
              var t := Ticket(s.contract.value.plan, slot);
              t in z.requests && Asks(s, t, files, z.requests[t]) && z == s.(requests := s.requests[t := z.requests[t]])
            else z == s
  {
    if Ready(s, env) && HasRow(s, slot) {
      WhenPrepared(s, slot, env, files);
      if Preparable(s, slot, env, files) {
        PreparedAsks(s, slot, env, files);
      }
    }
  }

  lemma PreparedAsks(s: State, slot: nat, env: Env, files: Files)
    requires |s.members| == SLOTS && Ready(s, env) && slot < SLOTS && WorksOn(s, Now(s, slot), env, files)
    requires MayPrepareRecovery(s, Now(s, slot), env)
    ensures var z, t := PrepareRecovery(s, slot, env), Now(s, slot);
            t in z.requests && Asks(s, t, files, z.requests[t]) && z == s.(requests := s.requests[t := z.requests[t]])
  {
  }

  // ---------- authorised ----------

  /** The request of the ticket is this very call, and nothing has happened to the ticket since it was prepared. */
  ghost predicate Requested(s: State, p: Payload) {
    && p.ticket in s.requests && p.ticket in s.observed && s.contract.Some?
    && var r := s.requests[p.ticket];
       && r.payload == p && r.plan == s.contract.value.plan && r.epoch == Epoch(s.dispatches, p.ticket)
       && s.observed[p.ticket].state == Completed && r.call == s.observed[p.ticket].call
       && r.count == (if p.ticket in s.recoveries then s.recoveries[p.ticket] else 0) + 1
  }

  /** What the request was prepared for still holds: a blocked report still rests on what has changed, and that did not
      change again; or the handback still says nothing. */
  ghost predicate StillDue(s: State, t: Ticket, files: Files)
    requires t in s.work && t in s.requests
  {
    if s.requests[t].reassess then
      BlockedOn(s, t, files) && s.requests[t].seen == Fingerprint(files, s.reports[t].dependencies)
    else SaysNothing(s, t)
  }

  /** The row is reserved again without a result and its recovery counted; a report to be judged again is withdrawn; the
      call is added unanswered. */
  ghost predicate Reopens(s: State, r: State, call: CallId, p: Payload) {
    && p.ticket in s.work && p.ticket in s.requests
    && r.recoveries == s.recoveries[p.ticket := (if p.ticket in s.recoveries then s.recoveries[p.ticket] else 0) + 1]
    && r.reports == (if s.requests[p.ticket].reassess then s.reports - {p.ticket} else s.reports)
    && r.work == s.work[p.ticket := s.work[p.ticket].(stage := Reserved, result := None, agent := p.target)]
    && r.dispatches == s.dispatches + [Dispatch(call, p, Unacknowledged)]
    && r == s.(recoveries := r.recoveries, reports := r.reports, work := r.work, dispatches := r.dispatches)
  }

  ghost predicate Authorised(s: State, call: CallId, p: Payload, env: Env, files: Files)
    requires p.ticket in s.work
  {
    && (forall d | d in s.dispatches :: d.call != call) && p.kind == Send
    && Callable(s, p.ticket, env) && Fitting(s, p) && RecoveryLeft(s, p.ticket) && Requested(s, p)
    && StillDue(s, p.ticket, files)
  }

  lemma WhenAuthorised(s: State, call: CallId, p: Payload, env: Env, files: Files)
    requires WorksOn(s, p.ticket, env, files) && s.work[p.ticket].stage == Returned
    ensures Authorised(s, call, p, env, files) <==> FindCall(s.dispatches, call).None? && MayDispatch(s, p, env)
  {
    OpenIsLive(s, p.ticket);
    NewNumber(s.dispatches, call);
    if s.contract.Some? {
      WhenRecovered(s, p, env, files);
    }
  }

  lemma WhenRecovered(s: State, p: Payload, env: Env, files: Files)
    requires s.contract.Some? && WorksOn(s, p.ticket, env, files) && s.work[p.ticket].stage == Returned
    ensures MayRecover(s, p, env) <==>
            p.kind == Send && RecoveryLeft(s, p.ticket) && Requested(s, p) && StillDue(s, p.ticket, files)
  {
  }

  /** A returned row is dispatched again exactly by its request; otherwise nothing changes. */
  lemma RecoveryIsSent(s: State, call: CallId, p: Payload, env: Env, files: Files)
    requires WorksOn(s, p.ticket, env, files) && s.work[p.ticket].stage == Returned
    ensures var r := ApplyHost(s, PreCall(call, p, env));
            if Authorised(s, call, p, env, files) then Reopens(s, r, call, p) else r == s
  {
    WhenAuthorised(s, call, p, env, files);
    if Authorised(s, call, p, env, files) {
      SentReopens(s, call, p);
    }
  }

  lemma SentReopens(s: State, call: CallId, p: Payload)
    requires p.ticket in s.work && s.work[p.ticket].stage == Returned && p.ticket in s.requests && RightCall(s, p)
    requires p.kind == Send
    ensures Reopens(s, Dispatched(s, call, p), call, p)
  {
  }
}
