/** Native calls one by one: which may be sent, what an answer acknowledges, what a transcript refuses, what a retry
    releases. */
module CrewAnswers {
  import opened Wrappers
  import opened Work
  import opened Texts
  import opened Crew
  import opened CrewInv
  import Receipts

  // ---------- sending ----------

  /** Some call of the ticket has no answer yet, or an unclear one, or runs. */
  ghost predicate HasOpenCall(s: State, t: Ticket) {
    exists i :: 0 <= i < |s.dispatches| && s.dispatches[i].payload.ticket == t &&
                s.dispatches[i].state in {Unacknowledged, Unknown, InFlight}
  }

  lemma OpenIsLive(s: State, t: Ticket)
    ensures HasOpenCall(s, t) <==> TicketLive(s, t)
  {
    if HasOpenCall(s, t) {
      var i :| 0 <= i < |s.dispatches| && s.dispatches[i].payload.ticket == t &&
               s.dispatches[i].state in {Unacknowledged, Unknown, InFlight};
      assert Outstanding(s.dispatches[i].state);
    }
    if TicketLive(s, t) {
      var i :| 0 <= i < |s.dispatches| && s.dispatches[i].payload.ticket == t && Outstanding(s.dispatches[i].state);
      assert s.dispatches[i].state in {Unacknowledged, Unknown, InFlight};
    }
  }

  /** The call is of a kind and target that fit the slot: a bound agent is sent input, an unbound slot is spawned. */
  ghost predicate Fitting(s: State, p: Payload) {
    p.ticket.slot < |s.members| &&
    match s.members[p.ticket.slot].agent
    case Some(a) => p.kind == Send && p.target == Some(a)
    case None => p.kind == Spawn && p.target == None
  }

  /** A reserved row of the round is ready for a first call: no standing refusal, no open call, and a writer has its
      checkout. */
  ghost predicate Callable(s: State, t: Ticket, env: Env) {
    && s.contract.Some? && env.current && s.contract.value.phase in {PLAN, EXECUTE, REVIEW}
    && t.plan == s.contract.value.plan && t in s.work && t !in s.rejected && !HasOpenCall(s, t)
    && (s.work[t].task.kind != Implement || s.work[t].workspace)
  }

  /** On a reserved row exactly a fitting call under a new number is sent; it is added unanswered, and a bound agent is
      entered in the row. */
  lemma ReservedIsSent(s: State, call: CallId, p: Payload, env: Env)
    requires p.ticket in s.work && s.work[p.ticket].stage == Reserved
    ensures var r := ApplyHost(s, PreCall(call, p, env));
            if (forall d | d in s.dispatches :: d.call != call) && Callable(s, p.ticket, env) && Fitting(s, p)
            then r == s.(work := s.work[p.ticket := s.work[p.ticket].(agent := if p.target.Some? then p.target
                                                                               else s.work[p.ticket].agent)],
                         dispatches := s.dispatches + [Dispatch(call, p, Unacknowledged)])
            else r == s
  {
    OpenIsLive(s, p.ticket);
    NewNumber(s.dispatches, call);
  }

  lemma NewNumber(ds: seq<Dispatch>, call: CallId)
    ensures FindCall(ds, call).None? <==> forall d | d in ds :: d.call != call
  {
    if FindCall(ds, call).None? {
      forall d | d in ds ensures d.call != call {
        var k :| 0 <= k < |ds| && ds[k] == d;
      }
    } else {
      assert ds[FindCall(ds, call).value] in ds;
    }
  }

  /** A row that is neither reserved nor returned takes no call. */
  lemma OtherRowsAreNotSent(s: State, call: CallId, p: Payload, env: Env)
    requires p.ticket in s.work ==> s.work[p.ticket].stage !in {Reserved, Returned}
    ensures ApplyHost(s, PreCall(call, p, env)) == s
  {
  }

  // ---------- answers ----------

  /** Dispatch i awaits an answer, in the current round. */
  ghost predicate Awaits(s: State, i: nat) {
    && i < |s.dispatches| && s.dispatches[i].state in {Unacknowledged, Unknown} && s.contract.Some?
    && s.dispatches[i].payload.ticket.plan == s.contract.value.plan && s.dispatches[i].payload.ticket in s.work
    && s.dispatches[i].payload.ticket.slot < |s.members|
  }

  /** The answer is unclear: of a spawn it names no agent, of input no submission to the bound agent, or it is an
      error. */
  ghost predicate Unclear(s: State, d: Dispatch, answer: Answer)
    requires d.payload.ticket.slot < |s.members|
  {
    answer.error ||
    match d.payload.kind
    case Spawn => answer.agent.None?
    case Send => s.members[d.payload.ticket.slot].agent.None? || !answer.submission
  }

  /** The agent that a clear answer acknowledges. */
  ghost predicate Acknowledges(s: State, d: Dispatch, answer: Answer, a: Agent)
    requires d.payload.ticket.slot < |s.members|
  {
    match d.payload.kind
    case Spawn => answer.agent == Some(a)
    case Send => s.members[d.payload.ticket.slot].agent == Some(a)
  }

  /** The agent belongs elsewhere: to another root, to another slot, or the slot has another one. */
  ghost predicate BelongsElsewhere(s: State, slot: nat, a: Agent)
    requires slot < |s.members|
  {
    || a in s.foreign || s.members[slot].agent !in {None, Some(a)}
    || exists k :: 0 <= k < |s.members| && k != slot && s.members[k].agent == Some(a)
  }

  /** Only the state of dispatch i differs. */
  ghost predicate CallBecomes(s: State, r: State, i: nat, state: CallState) {
    i < |s.dispatches| && r == s.(dispatches := s.dispatches[i := s.dispatches[i].(state := state)])
  }

  /** The agent sits in the slot of the dispatch, runs its row, and the call is in flight. */
  ghost predicate Runs(s: State, r: State, i: nat, a: Agent)
    requires Awaits(s, i)
  {
    var t := s.dispatches[i].payload.ticket;
    r == s.(members := s.members[t.slot := s.members[t.slot].(agent := Some(a))],
            work := s.work[t := s.work[t].(agent := Some(a), stage := Running)],
            dispatches := s.dispatches[i := s.dispatches[i].(state := InFlight)])
  }

  /** An unclear answer leaves the call unknown. */
  lemma UnclearIsUnknown(s: State, i: nat, answer: Answer)
    requires UniqueCalls(s.dispatches) && Awaits(s, i) && Unclear(s, s.dispatches[i], answer)
    ensures CallBecomes(s, ApplyHost(s, PostCall(s.dispatches[i].call, answer)), i, Unknown)
  {
    Found(s.dispatches, i);
    UnclearAnswer(s, i, answer);
  }

  lemma UnclearAnswer(s: State, i: nat, answer: Answer)
    requires Awaits(s, i) && FindCall(s.dispatches, s.dispatches[i].call) == Some(i)
    requires Unclear(s, s.dispatches[i], answer)
    ensures PostDispatch(s, s.dispatches[i].call, answer) == s.(dispatches := SetCall(s.dispatches, i, Unknown))
  {
  }

  /** Every other answer acknowledges exactly one agent, and starts the row with it; unless a spawned agent belongs
      elsewhere, which changes nothing. */
  lemma AnswerIsTaken(s: State, i: nat, answer: Answer, a: Agent)
    requires UniqueCalls(s.dispatches) && Awaits(s, i) && !Unclear(s, s.dispatches[i], answer)
    requires Acknowledges(s, s.dispatches[i], answer, a)
    ensures var d := s.dispatches[i];
            var r := ApplyHost(s, PostCall(d.call, answer));
            if d.payload.kind == Spawn && BelongsElsewhere(s, d.payload.ticket.slot, a) then r == s
            else Runs(s, r, i, a)
  {
    var d := s.dispatches[i];
    Found(s.dispatches, i);
    ElsewhereIsTaken(s, d.payload.ticket.slot, a);
    TakenAnswer(s, i, answer, a);
    AcknowledgedRuns(s, i, a);
  }

  lemma AcknowledgedRuns(s: State, i: nat, a: Agent)
    requires Awaits(s, i)
    ensures Answerable(s, i) && Runs(s, Acknowledged(s, i, a), i, a)
  {
  }

  lemma ElsewhereIsTaken(s: State, slot: nat, a: Agent)
    requires slot < |s.members|
    ensures BelongsElsewhere(s, slot, a) <==>
            TakenElsewhere(s, a, slot) || (s.members[slot].agent.Some? && s.members[slot].agent != Some(a))
  {
  }

  lemma TakenAnswer(s: State, i: nat, answer: Answer, a: Agent)
    requires Awaits(s, i) && FindCall(s.dispatches, s.dispatches[i].call) == Some(i)
    requires !Unclear(s, s.dispatches[i], answer) && Acknowledges(s, s.dispatches[i], answer, a)
    ensures var p := s.dispatches[i].payload;
            var bound := s.members[p.ticket.slot].agent;
            PostDispatch(s, s.dispatches[i].call, answer) ==
            if p.kind == Spawn && (TakenElsewhere(s, a, p.ticket.slot) || (bound.Some? && bound != Some(a))) then s
            else Acknowledged(s, i, a)
  {
  }

  lemma Found(ds: seq<Dispatch>, i: nat)
    requires UniqueCalls(ds) && i < |ds|
    ensures FindCall(ds, ds[i].call) == Some(i)
  {
  }

  /** An answer to a call that is unknown, answered or of another round changes nothing. */
  lemma AnswerIsIgnored(s: State, call: CallId, answer: Answer)
    requires UniqueCalls(s.dispatches)
    requires forall i | 0 <= i < |s.dispatches| && s.dispatches[i].call == call :: !Awaits(s, i)
    ensures ApplyHost(s, PostCall(call, answer)) == s
  {
    var i := FindCall(s.dispatches, call);
    if i.Some? {
      assert !Awaits(s, i.value);
    }
  }

  // ---------- transcripts ----------

  /** The only text that proves a refusal before the start. */
  lemma RefusalText(body: Body)
    ensures NotStarted(body) <==>
              body.text.Some? && Strip(body.text.value) == "collab spawn failed: agent thread limit reached"
  {
  }

  /** The call has failed, and its refusal blocks its ticket. */
  ghost predicate Blocks(s: State, r: State, i: nat) {
    i < |s.dispatches| &&
    r == s.(dispatches := s.dispatches[i := s.dispatches[i].(state := CallFailed)],
            rejected := s.rejected[s.dispatches[i].payload.ticket := s.dispatches[i].call])
  }

  lemma RefusalBlocks(s: State, i: nat)
    requires Awaits(s, i) && FindCall(s.dispatches, s.dispatches[i].call) == Some(i)
    requires s.dispatches[i].payload.kind == Spawn
    ensures var r := Refuse(s, s.dispatches[i].call);
            if s.work[s.dispatches[i].payload.ticket].agent.Some? then r == s else Blocks(s, r, i)
  {
  }

  lemma HeardMeans(s: State, i: nat, receipt: Receipt)
    requires Awaits(s, i) && FindCall(s.dispatches, s.dispatches[i].call) == Some(i)
    requires receipt.expected.callId == s.dispatches[i].call
    ensures var d := s.dispatches[i];
            var r := Reconciled(s, d.call, receipt);
            if !Heard(receipt).Receipt? then r == s
            else if d.payload.kind == Spawn && NotStarted(receipt.decode(Heard(receipt).output))
            then r == Refuse(s, d.call)
            else r == PostDispatch(s, d.call, receipt.decode(Heard(receipt).output).answer)
  {
  }

  /** Reconciliation of one awaited call: the exact refusal of a spawn fails the call and blocks its ticket, as long as
      no agent is in the row; every other recorded output is taken as the answer; without an output nothing changes. */
  lemma TranscriptIsHeard(s: State, i: nat, receipt: Receipt)
    requires UniqueCalls(s.dispatches) && Awaits(s, i) && receipt.expected.callId == s.dispatches[i].call
    ensures var d := s.dispatches[i];
            var heard := Receipts.ReadOn(receipt.earlier, receipt.file, receipt.parse, receipt.expected,
                                         receipt.offset);
            var r := ApplyHost(s, Reconcile(d.call, receipt));
            if !heard.Receipt? then r == s
            else if d.payload.kind == Spawn && NotStarted(receipt.decode(heard.output))
            then if s.work[d.payload.ticket].agent.Some? then r == s else Blocks(s, r, i)
            else r == ApplyHost(s, PostCall(d.call, receipt.decode(heard.output).answer))
  {
    Found(s.dispatches, i);
    HeardMeans(s, i, receipt);
    if s.dispatches[i].payload.kind == Spawn {
      RefusalBlocks(s, i);
    }
  }

  /** A transcript of another call, or of a call that does not await an answer in the round, is not heard. */
  lemma TranscriptIsIgnored(s: State, call: CallId, receipt: Receipt)
    requires receipt.expected.callId != call ||
             forall i | 0 <= i < |s.dispatches| && s.dispatches[i].call == call :: !Awaits(s, i)
    ensures ApplyHost(s, Reconcile(call, receipt)) == s
  {
    var i := FindCall(s.dispatches, call);
    if i.Some? && receipt.expected.callId == call {
      assert !Awaits(s, i.value);
    }
  }

  /** A retry is granted exactly for the standing refusal of a reserved row of the round that no agent is in, with no
      call open and no agent bound to the slot; it takes the refusal off the ticket and keeps it on record. */
  lemma RetryIsGranted(s: State, slot: nat, env: Env)
    requires |s.members| == SLOTS
    ensures var r := ApplyHost(s, RetryNative(slot, env));
            if && s.contract.Some? && env.current && slot < 6 && Ticket(s.contract.value.plan, slot) in s.work
               && var t := Ticket(s.contract.value.plan, slot);
                  t in s.rejected && !HasOpenCall(s, t) && s.work[t].stage == Reserved && s.work[t].agent.None? &&
                  s.members[slot].agent.None?
            then var t := Ticket(s.contract.value.plan, slot);
                 r == s.(retried := s.retried + {s.rejected[t]}, rejected := s.rejected - {t})
            else r == s
  {
    if s.contract.Some? {
      OpenIsLive(s, Now(s, slot));
    }
  }

  /** Another root binds exactly an agent that no slot here has. */
  lemma ForeignIsBound(s: State, a: Agent)
    ensures ApplyHost(s, ForeignBinding(a)) ==
            if exists k :: 0 <= k < |s.members| && s.members[k].agent == Some(a) then s
            else s.(foreign := s.foreign + {a})
  {
  }

  // ---------- joining ----------

  /** A worker joins exactly the row of its own slot and round while a call of it is in flight: it runs the row, and the
      ticket is its last. A worker with checks under way may only join the same assignment again. */
  lemma JoinIsGranted(s: State, a: Agent, t: Ticket, genuine: bool, env: Env)
    ensures var r := ApplyWorker(s, JoinCrew(a, t, genuine, env));
            if && genuine && s.contract.Some? && t.plan == s.contract.value.plan && t in s.work && t.slot < |s.members|
               && s.members[t.slot].agent == Some(a) && s.work[t].agent in {None, Some(a)}
               && s.work[t].stage in {Reserved, Running} && (s.work[t].task.kind != Implement || s.work[t].workspace)
               && (exists d :: d in s.dispatches && d.payload.ticket == t && d.state == InFlight)
               && (env.quiet || (a in s.metas && s.metas[a] == Meta(t, s.contract.value.round)))
            then r == s.(work := s.work[t := s.work[t].(stage := Running, agent := Some(a))],
                         metas := s.metas[a := Meta(t, s.contract.value.round)],
                         members := s.members[t.slot := s.members[t.slot].(worker := true)])
            else r == s
  {
    assert (exists d :: d in s.dispatches && d.payload.ticket == t && d.state == InFlight) <==>
           exists i :: 0 <= i < |s.dispatches| && s.dispatches[i].payload.ticket == t &&
                       s.dispatches[i].state == InFlight;
  }
}
