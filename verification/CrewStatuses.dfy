/** What a native status does to the row it speaks of, status by status, for the results of waits. */
module CrewStatuses {
  import opened Wrappers
  import opened Work
  import opened Crew
  import opened CrewInv
  import opened CrewCalls
  import opened CrewWaits

  // ---------- one row ----------

  /** The row ends at a stage with nothing verified, and every call of its ticket in the same way. */
  ghost predicate EndsAs(s: State, r: State, t: Ticket, stage: Stage, calls: CallState) {
    && t in s.work && t in r.work
    && r.work[t] == s.work[t].(stage := stage, result := Some(Handback(Status.Unverified, None, false)))
    && |r.dispatches| == |s.dispatches|
    && (forall i | 0 <= i < |s.dispatches| && s.dispatches[i].payload.ticket == t ::
          r.dispatches[i] == s.dispatches[i].(state := calls))
  }

  ghost predicate StaysAs(s: State, r: State, t: Ticket) {
    && t in s.work && t in r.work && r.work[t] == s.work[t] && |r.dispatches| == |s.dispatches|
    && (forall i | 0 <= i < |s.dispatches| && s.dispatches[i].payload.ticket == t :: r.dispatches[i] == s.dispatches[i])
  }

  /** A failure fails a row that is reserved, running, returned or accepted; a completion returns one that is reserved
      or running; nothing else moves a row. */
  ghost predicate Follows(s: State, r: State, t: Ticket, status: Native) {
    t in s.work &&
    if status in {Errored, Interrupted, Shutdown, NotFound} &&
       s.work[t].stage in {Reserved, Running, Returned, Accepted}
    then EndsAs(s, r, t, Failed, CallFailed)
    else if status == Completed && s.work[t].stage in {Reserved, Running} then EndsAs(s, r, t, Returned, CallReturned)
    else StaysAs(s, r, t)
  }

  /** The row and the dispatches are what they were. */
  lemma SameRows(s: State, m: State, r: State, t: Ticket, status: Native)
    requires m.work == s.work && m.dispatches == s.dispatches && Follows(m, r, t, status)
    ensures Follows(s, r, t, status)
  {
  }

  lemma SameEnd(s: State, m: State, r: State, t: Ticket, status: Native)
    requires r.work == m.work && r.dispatches == m.dispatches && Follows(s, m, t, status)
    ensures Follows(s, r, t, status)
  {
  }

  lemma LandingMoves(s: State, t: Ticket, status: Native)
    requires t in s.work
    ensures var l := Landing(status, s.work[t].stage);
            Follows(s, if l.Some? then Land(s, t, l.value) else s, t, status)
  {
    var l := Landing(status, s.work[t].stage);
    if l.Some? {
      LandEnds(s, t, l.value);
    }
  }

  lemma LandEnds(s: State, t: Ticket, stage: Stage)
    requires t in s.work && stage in {Returned, Failed}
    ensures EndsAs(s, Land(s, t, stage), t, stage, if stage == Returned then CallReturned else CallFailed)
  {
  }

  /** Whatever ends a row leaves no call of it open. */
  lemma EndedIsIdle(s: State, r: State, t: Ticket, stage: Stage, calls: CallState)
    requires EndsAs(s, r, t, stage, calls) && calls in {CallFailed, CallReturned}
    requires forall i | 0 <= i < |s.dispatches| :: r.dispatches[i].payload == s.dispatches[i].payload
    ensures !TicketLive(r, t)
  {
  }

  lemma FollowsElsewhere(s: State, m: State, r: State, t: Ticket, status: Native)
    requires (Untouched(s, m, t) && Follows(m, r, t, status)) || (Follows(s, m, t, status) && Untouched(m, r, t))
    requires |m.dispatches| == |s.dispatches| && forall i | 0 <= i < |s.dispatches| ::
               m.dispatches[i].payload == s.dispatches[i].payload
    ensures Follows(s, r, t, status)
  {
  }

  // ---------- one status of a wait ----------

  /** The wait saw the agent's row as it is: same dispatches, same plan, same agent. */
  ghost predicate SeenAsIs(s: State, w: Wait, a: Agent) {
    a in w.snapshot &&
    var t := w.snapshot[a].ticket;
    t in s.work && t.plan == w.plan && s.work[t].agent == Some(a) && w.snapshot[a].epoch == Epoch(s.dispatches, t)
  }

  /** The observation names status, agent, dispatches, plan and wait. */
  ghost predicate Noticed(r: State, call: CallId, w: Wait, a: Agent, status: Native) {
    a in w.snapshot && w.snapshot[a].ticket in r.observed &&
    r.observed[w.snapshot[a].ticket] == Observation(status, Some(a), w.snapshot[a].epoch, w.plan, call)
  }

  lemma ObserveFollows(s: State, call: CallId, w: Wait, a: Agent, status: Native)
    requires SeenAsIs(s, w, a)
    ensures var r := Observe(s, call, w, a, status);
            Follows(s, r, w.snapshot[a].ticket, status) && Noticed(r, call, w, a, status)
  {
    var t := w.snapshot[a].ticket;
    var m := Noted(s, call, w, a, status);
    assert Counts(s, w, a);
    LandingMoves(m, t, status);
    SameRows(s, m, Observe(s, call, w, a, status), t, status);
  }

  /** The entries of a result other than one's own leave one's ticket alone. */
  lemma {:induction false} OthersUntouched(s: State, call: CallId, w: Wait, lone: bool,
                                           statuses: seq<(string, Option<Native>)>, t: Ticket)
    requires forall e | e in statuses :: Resolve(w, lone, e.0).Some? && Resolve(w, lone, e.0).value in w.snapshot ==>
               w.snapshot[Resolve(w, lone, e.0).value].ticket != t
    ensures Untouched(s, ObserveAll(s, call, w, lone, statuses), t)
    ensures KeepsCalls(s.dispatches, ObserveAll(s, call, w, lone, statuses).dispatches)
    decreases |statuses|
  {
    ObserveAllKeepsCalls(s, call, w, lone, statuses);
    if statuses != [] {
      var m := ObserveOne(s, call, w, lone, statuses[0].0, statuses[0].1);
      OneElsewhere(s, call, w, lone, statuses[0], t);
      OthersUntouched(m, call, w, lone, statuses[1..], t);
      UntouchedTwice(s, m, ObserveAll(s, call, w, lone, statuses), t);
    }
  }

  lemma OneElsewhere(s: State, call: CallId, w: Wait, lone: bool, e: (string, Option<Native>), t: Ticket)
    requires Resolve(w, lone, e.0).Some? && Resolve(w, lone, e.0).value in w.snapshot ==>
               w.snapshot[Resolve(w, lone, e.0).value].ticket != t
    ensures Untouched(s, ObserveOne(s, call, w, lone, e.0, e.1), t)
  {
    var a := Resolve(w, lone, e.0);
    if a.Some? && a.value in w.snapshot && e.1.Some? {
      OtherTicketsUntouched(s, call, w, a.value, e.1.value, t);
    }
  }

  // ---------- whole results ----------

  /** The snapshot has a ticket of its own for every agent. */
  ghost predicate OneTicketEach(w: Wait) {
    forall a, b | a in w.snapshot && b in w.snapshot && a != b :: w.snapshot[a].ticket != w.snapshot[b].ticket
  }

  /** Entry i of a result is taken as the status of agent a: under the agent's own key, or alone under an internal path
      when the wait had one target. */
  ghost predicate SpeaksOf(w: Wait, statuses: seq<(string, Option<Native>)>, i: nat, a: Agent) {
    && i < |statuses| && a in w.snapshot
    && (statuses[i].0 == a ||
        (|statuses| == 1 && w.targets == [a] && statuses[i].0 !in w.snapshot &&
         statuses[i].0 != "" && statuses[i].0[0] == '/'))
    && forall j | 0 <= j < |statuses| && j != i :: statuses[j].0 != statuses[i].0
  }

  lemma {:induction false} EntryCounts(s: State, call: CallId, w: Wait, lone: bool,
                                       statuses: seq<(string, Option<Native>)>, i: nat, a: Agent, status: Native)
    requires i < |statuses| && statuses[i].1 == Some(status) && SeenAsIs(s, w, a) && OneTicketEach(w)
    requires Resolve(w, lone, statuses[i].0) == Some(a)
    requires forall j | 0 <= j < |statuses| && j != i :: Resolve(w, lone, statuses[j].0) != Some(a)
    ensures var r := ObserveAll(s, call, w, lone, statuses);
            Follows(s, r, w.snapshot[a].ticket, status) && Noticed(r, call, w, a, status)
    decreases |statuses|
  {
    var t := w.snapshot[a].ticket;
    var m := ObserveOne(s, call, w, lone, statuses[0].0, statuses[0].1);
    var rest := statuses[1..];
    var r := ObserveAll(s, call, w, lone, statuses);
    ObserveOneKeepsCalls(s, call, w, lone, statuses[0].0, statuses[0].1);
    if i == 0 {
      ObserveFollows(s, call, w, a, status);
      forall e | e in rest ensures Resolve(w, lone, e.0) != Some(a) {
        var j :| 0 <= j < |rest| && rest[j] == e;
        assert statuses[j + 1] == e;
      }
      OthersUntouched(m, call, w, lone, rest, t);
    } else {
      OneElsewhere(s, call, w, lone, statuses[0], t);
      EpochNeverReturns(s.dispatches, m.dispatches, t);
      assert forall j | 0 <= j < |rest| :: rest[j] == statuses[j + 1];
      EntryCounts(m, call, w, lone, rest, i - 1, a, status);
    }
    FollowsElsewhere(s, m, r, t, status);
  }

  lemma SpeaksResolves(w: Wait, statuses: seq<(string, Option<Native>)>, i: nat, a: Agent)
    requires SpeaksOf(w, statuses, i, a)
    ensures Resolve(w, |statuses| == 1, statuses[i].0) == Some(a)
    ensures forall j | 0 <= j < |statuses| && j != i :: Resolve(w, |statuses| == 1, statuses[j].0) != Some(a)
  {
  }

  lemma Heeded(s: State, call: CallId, r: WaitResult)
    requires call in s.waits && s.waits[call].result.None?
    requires s.contract.Some? && s.contract.value.plan == s.waits[call].plan && !r.error && r.statuses.Some?
    ensures var z := ApplyWait(s, PostWaiting(call, r));
            z == ObserveAll(s, call, s.waits[call], |r.statuses.value| == 1, r.statuses.value).(waits := z.waits)
  {
  }

  /** A result of the round's wait, without an error, moves the row of every agent it speaks of by that agent's status,
      as long as the wait saw the row as it is. */
  lemma EveryStatusCounts(s: State, call: CallId, r: WaitResult, i: nat, a: Agent, status: Native)
    requires call in s.waits && s.waits[call].result.None? && OneTicketEach(s.waits[call])
    requires s.contract.Some? && s.contract.value.plan == s.waits[call].plan && !r.error && r.statuses.Some?
    requires SpeaksOf(s.waits[call], r.statuses.value, i, a) && r.statuses.value[i].1 == Some(status)
    requires SeenAsIs(s, s.waits[call], a)
    ensures var z := ApplyWait(s, PostWaiting(call, r));
            Follows(s, z, s.waits[call].snapshot[a].ticket, status) && Noticed(z, call, s.waits[call], a, status)
  {
    var w, statuses := s.waits[call], r.statuses.value;
    SpeaksResolves(w, statuses, i, a);
    EntryCounts(s, call, w, |statuses| == 1, statuses, i, a, status);
    Heeded(s, call, r);
    SameEnd(s, ObserveAll(s, call, w, |statuses| == 1, statuses), ApplyWait(s, PostWaiting(call, r)),
            w.snapshot[a].ticket, status);
  }

  /** An erroneous result, one without statuses and one of an earlier round only finish their wait; so does one whose
      statuses are not recognised or speak of nobody. */
  lemma DeafResult(s: State, call: CallId, r: WaitResult)
    requires call in s.waits && s.waits[call].result.None?
    requires || s.contract.None? || s.contract.value.plan != s.waits[call].plan || r.error || r.statuses.None?
             || forall e | e in r.statuses.value :: e.1.None?
    ensures ApplyWait(s, PostWaiting(call, r)) ==
            s.(waits := s.waits[call := s.waits[call].(result := Some(r))])
  {
    if r.statuses.Some? && forall e | e in r.statuses.value :: e.1.None? {
      NothingRecognised(s, call, s.waits[call], |r.statuses.value| == 1, r.statuses.value);
    }
  }

  lemma {:induction false} NothingRecognised(s: State, call: CallId, w: Wait, lone: bool,
                                             statuses: seq<(string, Option<Native>)>)
    requires forall e | e in statuses :: e.1.None?
    ensures ObserveAll(s, call, w, lone, statuses) == s
    decreases |statuses|
  {
    if statuses != [] {
      NothingRecognised(s, call, w, lone, statuses[1..]);
    }
  }

  /** Some entry, with a status that is recognised, speaks of an agent whose row the wait saw as it is, on this ticket.
      */
  ghost predicate Touched(s: State, w: Wait, statuses: seq<(string, Option<Native>)>, t: Ticket) {
    exists e, a :: e in statuses && Names(w, |statuses| == 1, e.0, a) && SeenAsIs(s, w, a) &&
                   w.snapshot[a].ticket == t && e.1.Some?
  }

  /** The key is the agent's own, or the only one, an internal path, in answer to a wait for that agent alone. */
  ghost predicate Names(w: Wait, lone: bool, key: string, a: Agent) {
    a in w.snapshot &&
    (key == a || (key !in w.snapshot && lone && w.targets == [a] && key != "" && key[0] == '/'))
  }

  lemma UnseenEntry(s: State, call: CallId, w: Wait, lone: bool, e: (string, Option<Native>), t: Ticket)
    requires forall a | Names(w, lone, e.0, a) && SeenAsIs(s, w, a) && e.1.Some? :: w.snapshot[a].ticket != t
    ensures Untouched(s, ObserveOne(s, call, w, lone, e.0, e.1), t)
  {
    var a := Resolve(w, lone, e.0);
    if a.Some? && a.value in w.snapshot && e.1.Some? {
      assert Names(w, lone, e.0, a.value);
      if SeenAsIs(s, w, a.value) {
        OtherTicketsUntouched(s, call, w, a.value, e.1.value, t);
      } else {
        assert !Counts(s, w, a.value);
      }
    }
  }

  lemma StillUnseen(s: State, m: State, w: Wait, a: Agent)
    requires a in w.snapshot && Untouched(s, m, w.snapshot[a].ticket) && KeepsCalls(s.dispatches, m.dispatches)
    ensures SeenAsIs(m, w, a) <==> SeenAsIs(s, w, a)
  {
    EpochNeverReturns(s.dispatches, m.dispatches, w.snapshot[a].ticket);
  }

  lemma {:induction false} UnseenEntries(s: State, call: CallId, w: Wait, lone: bool,
                                         statuses: seq<(string, Option<Native>)>, t: Ticket)
    requires forall e, a | e in statuses && Names(w, lone, e.0, a) && SeenAsIs(s, w, a) && e.1.Some? ::
               w.snapshot[a].ticket != t
    ensures Untouched(s, ObserveAll(s, call, w, lone, statuses), t)
    decreases |statuses|
  {
    if statuses != [] {
      var m := ObserveOne(s, call, w, lone, statuses[0].0, statuses[0].1);
      UnseenEntry(s, call, w, lone, statuses[0], t);
      ObserveOneKeepsCalls(s, call, w, lone, statuses[0].0, statuses[0].1);
      forall e, a | e in statuses[1..] && Names(w, lone, e.0, a) && SeenAsIs(m, w, a) && e.1.Some?
        ensures w.snapshot[a].ticket != t
      {
        if w.snapshot[a].ticket == t {
          StillUnseen(s, m, w, a);
        }
      }
      UnseenEntries(m, call, w, lone, statuses[1..], t);
      UntouchedTwice(s, m, ObserveAll(s, call, w, lone, statuses), t);
    }
  }

  /** Every other ticket is left alone. */
  lemma NothingElseMoves(s: State, call: CallId, r: WaitResult, t: Ticket)
    requires call in s.waits && r.statuses.Some? && !Touched(s, s.waits[call], r.statuses.value, t)
    ensures Untouched(s, ApplyWait(s, PostWaiting(call, r)), t)
  {
    var w, lone := s.waits[call], |r.statuses.value| == 1;
    forall e, a | e in r.statuses.value && Names(w, lone, e.0, a) && SeenAsIs(s, w, a) && e.1.Some?
      ensures w.snapshot[a].ticket != t
    {
    }
    UnseenEntries(s, call, w, lone, r.statuses.value, t);
    OnlyStatusesMove(s, call, r);
  }

  lemma OnlyStatusesMove(s: State, call: CallId, r: WaitResult)
    requires call in s.waits && r.statuses.Some?
    ensures var z := ApplyWait(s, PostWaiting(call, r));
            var m := ObserveAll(s, call, s.waits[call], |r.statuses.value| == 1, r.statuses.value);
            SameTickets(s, z) || SameTickets(m, z)
  {
  }

  ghost predicate SameTickets(s: State, z: State) {
    z.work == s.work && z.observed == s.observed && z.dispatches == s.dispatches
  }

  // ---------- waiting ----------

  /** The agent has a started row in the round. */
  ghost predicate HasStarted(s: State, a: Agent) {
    s.contract.Some? && exists i :: 0 <= i < SLOTS && Now(s, i) in s.work && s.work[Now(s, i)].agent == Some(a) &&
                                    s.work[Now(s, i)].stage != Pending
  }

  /** What a wait that is issued remembers. */
  ghost predicate Remembers(s: State, w: Wait, targets: seq<Agent>) {
    && s.contract.Some? && w.plan == s.contract.value.plan && w.targets == targets && w.result.None?
    && w.snapshot.Keys == (set a | a in targets) && (forall a | a in targets :: SeenAsIs(s, w, a)) && OneTicketEach(w)
  }

  /** A wait is issued exactly for one to six different agents that have started rows. */
  lemma WaitIsIssued(s: State, call: CallId, targets: seq<Agent>, env: Env)
    requires Inv(s)
    ensures ApplyWait(s, PreWaiting(call, targets, env)) != s <==>
              && s.contract.Some? && env.current && call !in s.waits && 1 <= |targets| <= 6
              && (forall i, j | 0 <= i < j < |targets| :: targets[i] != targets[j])
              && (forall a | a in targets :: HasStarted(s, a))
  {
    if s.contract.Some? {
      forall a ensures HasStarted(s, a) <==> SlotOf(s, a).Some? && s.work[Now(s, SlotOf(s, a).value)].stage != Pending {
        OneRowEach(s, a);
      }
    }
  }

  /** It remembers for each of them the ticket that carries it, with the dispatches it has now. */
  lemma IssuedRemembers(s: State, call: CallId, targets: seq<Agent>, env: Env)
    requires ApplyWait(s, PreWaiting(call, targets, env)) != s
    ensures var z := ApplyWait(s, PreWaiting(call, targets, env));
            && call in z.waits && Remembers(s, z.waits[call], targets)
            && z == s.(waits := s.waits[call := z.waits[call]])
  {
  }

  /** No two rows of a round carry the same agent. */
  lemma OneRowEach(s: State, a: Agent)
    requires Inv(s) && s.contract.Some?
    ensures forall i, j | 0 <= i < SLOTS && 0 <= j < SLOTS && Now(s, i) in s.work && Now(s, j) in s.work &&
                          s.work[Now(s, i)].agent == s.work[Now(s, j)].agent == Some(a) :: i == j
  {
  }

  // ---------- in every run ----------

  /** Every wait on record has a ticket of its own for every agent. */
  ghost predicate WaitsApart(s: State) {
    forall c | c in s.waits :: OneTicketEach(s.waits[c])
  }

  lemma IssueKeepsApart(s: State, call: CallId, targets: seq<Agent>, env: Env)
    requires WaitsApart(s)
    ensures WaitsApart(PreWait(s, call, targets, env))
  {
  }

  lemma ResultKeepsApart(s: State, call: CallId, r: WaitResult)
    requires WaitsApart(s)
    ensures WaitsApart(PostWait(s, call, r))
  {
  }

  lemma WaitKeepsApart(s: State, w: WaitCommand)
    requires WaitsApart(s)
    ensures WaitsApart(ApplyWait(s, w))
  {
    match w
    case PreWaiting(call, targets, env) => IssueKeepsApart(s, call, targets, env);
    case PostWaiting(call, r) => ResultKeepsApart(s, call, r);
    case Recover(_, _) =>
  }

  lemma SameWaits(s: State, c: Command)
    requires !c.AtWait?
    ensures Apply(s, c).waits == s.waits
  {
    match c
    case AtHost(h) => HostSameWaits(s, h);
    case AtWait(_) =>
    case ByWorker(k) => WorkerSameWaits(s, k);
    case ByRoot(r) => RootSameWaits(s, r);
    case AtRound(n) => RoundSameWaits(s, n);
  }

  lemma HostSameWaits(s: State, h: HostCommand)
    ensures ApplyHost(s, h).waits == s.waits
  {
  }

  lemma WorkerSameWaits(s: State, k: WorkerCommand)
    ensures ApplyWorker(s, k).waits == s.waits
  {
  }

  lemma RootSameWaits(s: State, r: RootCommand)
    ensures ApplyRoot(s, r).waits == s.waits
  {
  }

  lemma RoundSameWaits(s: State, n: RoundCommand)
    ensures ApplyRound(s, n).waits == s.waits
  {
  }

  lemma {:induction false} RunKeepsApart(s: State, cs: seq<Command>)
    requires WaitsApart(s)
    ensures WaitsApart(Run(s, cs))
    decreases |cs|
  {
    if cs != [] {
      if cs[0].AtWait? {
        WaitKeepsApart(s, cs[0].w);
      } else {
        SameWaits(s, cs[0]);
      }
      RunKeepsApart(Apply(s, cs[0]), cs[1..]);
    }
  }

  /** A result that is heard moves the row of every agent it speaks of by that agent's status, as long as the wait saw
      the row as it is. */
  ghost predicate EachCounts(s: State, z: State, call: CallId, r: WaitResult) {
    call in s.waits && s.waits[call].result.None? && s.contract.Some? &&
    s.contract.value.plan == s.waits[call].plan && !r.error && r.statuses.Some? ==>
      forall i: nat, a | SpeaksOf(s.waits[call], r.statuses.value, i, a) && SeenAsIs(s, s.waits[call], a) ::
        EntryIsTaken(s, z, call, s.waits[call], a, r.statuses.value[i].1)
  }

  ghost predicate EntryIsTaken(s: State, z: State, call: CallId, w: Wait, a: Agent, status: Option<Native>) {
    status.Some? && a in w.snapshot ==>
      Follows(s, z, w.snapshot[a].ticket, status.value) && Noticed(z, call, w, a, status.value)
  }

  lemma ResultCounts(s: State, call: CallId, r: WaitResult)
    requires WaitsApart(s)
    ensures EachCounts(s, PostWait(s, call, r), call, r)
  {
    var z := PostWait(s, call, r);
    if call in s.waits && s.waits[call].result.None? && s.contract.Some? &&
       s.contract.value.plan == s.waits[call].plan && !r.error && r.statuses.Some? {
      forall i: nat, a | SpeaksOf(s.waits[call], r.statuses.value, i, a) && SeenAsIs(s, s.waits[call], a)
        ensures EntryIsTaken(s, z, call, s.waits[call], a, r.statuses.value[i].1)
      {
        if r.statuses.value[i].1.Some? {
          EveryStatusCounts(s, call, r, i, a, r.statuses.value[i].1.value);
        }
      }
    }
  }
}
