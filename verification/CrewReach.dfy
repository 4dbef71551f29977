/** Six responsive agents can take the fixed crew from any opened round to the end of it, and a fresh crew to COMPLETE
    under exactly the terms and evidence that its guards ask for. */
module CrewReach {
  import opened Files
  import opened Wrappers
  import Paths
  import opened Plans
  import opened Texts
  import opened Capsules
  import opened Work
  import Ledger
  import opened Crew
  import opened CrewCalls
  import CrewCertificate

  /** Who works, in which surroundings; note is an existing file for the reports to cite. */
  datatype Scene = Scene(agents: seq<Agent>, env: Env, note: Option<Paths.Path>)

  /** Six different agents no other root has, each bound to its slot or still to be. */
  ghost predicate Manned(s: State, agents: seq<Agent>) {
    && |s.members| == |agents| == SLOTS
    && (forall k | 0 <= k < SLOTS :: s.members[k].agent in {None, Some(agents[k])} && agents[k] !in s.foreign)
    && (forall k, l | 0 <= k < l < SLOTS :: agents[k] != agents[l])
  }

  /** A review looks at the artifact as it was frozen, and has a file of it to cite. */
  ghost predicate InReview(c: Contract, x: Scene) {
    x.note.Some? && Fingerprint(x.env.files, c.reviewPaths) == c.snapshot
  }

  /** An opened round with nothing under way. */
  ghost predicate Open(s: State, x: Scene) {
    && Ready(s, x.env) && x.env.quiet && s.contract.value.phase != COMPLETE && s.contract.value.requirements != []
    && (s.contract.value.phase == REVIEW ==> InReview(s.contract.value, x))
    && Manned(s, x.agents) && !AnyLive(s)
  }

  /** An investigation in the root's own workspace, whose scope holds the file to cite, if there is one. */
  ghost predicate Citable(row: Row, x: Scene) {
    row.task.kind == Investigate && !row.workspace &&
    (x.note.Some? ==> x.note.value in x.env.files && Within(Scopes(row), x.note.value))
  }

  /** The slot's reserved investigation was not dispatched yet. */
  ghost predicate Waiting(s: State, i: nat, x: Scene)
    requires s.contract.Some?
  {
    var t := Now(s, i);
    t in s.work && s.work[t].stage == Reserved && s.work[t].agent.None? && t !in s.rejected && Citable(s.work[t], x)
  }

  /** The slot's agent reported clear and handed back. */
  ghost predicate Done(s: State, i: nat, x: Scene)
    requires s.contract.Some?
  {
    && i < SLOTS && i < |s.members| && i < |x.agents| && s.members[i].agent == Some(x.agents[i])
    && HasRow(s, i) && SlotReturned(s, i, true, x.env) && DetailsRead(s, Now(s, i))
  }

  function CallFor(s: State, i: nat): Payload
    requires s.contract.Some? && i < |s.members|
  {
    Payload(if s.members[i].agent.Some? then Send else Spawn, s.members[i].agent, Now(s, i), Assignment(""))
  }

  function Below(n: nat): (r: set<nat>)
    ensures forall k: nat :: k in r <==> k < n
  {
    if n == 0 then {} else Below(n - 1) + {n - 1}
  }

  /** A clear report on every requirement that cites the first one, and the file. */
  function ClearDraft(c: Contract, note: Option<Paths.Path>): Draft {
    Draft(true, Clear, Below(|c.requirements|), if note.Some? then {note.value} else {}, {0}, {}, false)
  }

  /** Dispatch, acknowledgement, join, report and handback of one slot. */
  function Turn(s: State, i: nat, call: CallId, x: Scene): seq<Command>
    requires s.contract.Some? && i < |s.members| && i < |x.agents|
  {
    var agent := x.agents[i];
    [AtHost(PreCall(call, CallFor(s, i), x.env)), AtHost(PostCall(call, Answer(Some(agent), true, false))),
     ByWorker(JoinCrew(agent, Now(s, i), true, x.env)),
     ByWorker(SubmitReport(agent, ClearDraft(s.contract.value, x.note), x.env)),
     ByWorker(Return(agent, Status.Analysis))]
  }

  /** What other slots see of a turn. */
  ghost predicate Aside(s: State, r: State, i: nat, agent: Agent)
    requires s.contract.Some?
  {
    && r.contract == s.contract && r.plans == s.plans && r.foreign == s.foreign && r.rejected == s.rejected
    && r.delivered == s.delivered
    && |r.members| == |s.members| && (forall k | 0 <= k < |s.members| && k != i :: r.members[k] == s.members[k])
    && r.work.Keys == s.work.Keys && (forall t | t in s.work && t != Now(s, i) :: r.work[t] == s.work[t])
    && (forall t | t != Now(s, i) ::
          (t in r.reports <==> t in s.reports) && (t in s.reports ==> r.reports[t] == s.reports[t]))
    && (forall a | a != agent :: (a in r.metas <==> a in s.metas) && (a in s.metas ==> r.metas[a] == s.metas[a]))
  }

  // ---------- one slot ----------

  lemma Dispatches(s: State, i: nat, call: CallId, x: Scene)
    requires Open(s, x) && i < SLOTS && Waiting(s, i, x) && FindCall(s.dispatches, call).None?
    ensures var p := CallFor(s, i);
            PreDispatch(s, call, p, x.env) ==
              s.(work := s.work[Now(s, i) := s.work[Now(s, i)].(agent := s.members[i].agent)],
                 dispatches := s.dispatches + [Dispatch(call, p, Unacknowledged)])
  {
    assert !TicketLive(s, Now(s, i));
    assert s.work[Now(s, i)].(agent := None) == s.work[Now(s, i)];
  }

  lemma Acknowledges(s: State, i: nat, agent: Agent, ds: seq<Dispatch>, d: Dispatch)
    requires s.contract.Some? && i < |s.members| && Now(s, i) in s.work && s.dispatches == ds + [d] &&
             d.state == Unacknowledged
    requires d.payload.ticket == Now(s, i) && d.payload.kind == (if s.members[i].agent.Some? then Send else Spawn)
    requires s.members[i].agent in {None, Some(agent)} && !TakenElsewhere(s, agent, i)
    ensures PostDispatch(s, d.call, Answer(Some(agent), true, false)) ==
              s.(members := s.members[i := s.members[i].(agent := Some(agent))],
                 work := s.work[Now(s, i) := s.work[Now(s, i)].(agent := Some(agent), stage := Running)],
                 dispatches := ds + [d.(state := InFlight)])
  {
    assert FindCall(s.dispatches, d.call) == Some(|ds|);
    assert SetCall(s.dispatches, |ds|, InFlight) == ds + [d.(state := InFlight)];
  }

  lemma Joins(s: State, i: nat, agent: Agent, ds: seq<Dispatch>, d: Dispatch, env: Env)
    requires s.contract.Some? && i < |s.members| && s.members[i].agent == Some(agent) && env.quiet &&
             Now(s, i) in s.work
    requires s.dispatches == ds + [d] && d.payload.ticket == Now(s, i) && d.state == InFlight
    requires var row := s.work[Now(s, i)];
             row.stage == Running && row.agent == Some(agent) && row.task.kind == Investigate
    ensures Join(s, agent, Now(s, i), true, env) ==
              s.(work := s.work[Now(s, i) := s.work[Now(s, i)].(stage := Running, agent := Some(agent))],
                 metas := s.metas[agent := Meta(Now(s, i), s.contract.value.round)],
                 members := s.members[i := s.members[i].(worker := true)])
  {
    assert s.dispatches[|ds|] == d;
  }

  /** A clear report of the agent, on files as they are. */
  ghost predicate ClearReport(report: Report, c: Contract, agent: Agent, env: Env) {
    report.agent == agent && report.round == c.round && report.verdict == Clear && !report.lengthy &&
    forall p | p in report.references :: p in env.files && env.files[p] == report.references[p]
  }

  lemma ReferencesAreOk(c: Contract, row: Row, x: Scene)
    requires c.requirements != [] && Citable(row, x)
    ensures ReferencesOk(ClearDraft(c, x.note), Scopes(row), x.env.files, |c.requirements|)
    ensures ClearReport(Written(ClearDraft(c, x.note), "", c.round, Scopes(row), x.env.files), c, "", x.env)
  {
  }

  lemma Reports(s: State, i: nat, agent: Agent, x: Scene)
    requires Ready(s, x.env) && s.contract.value.requirements != [] && Now(s, i) in s.work &&
             Citable(s.work[Now(s, i)], x)
    requires s.contract.value.phase == REVIEW ==> InReview(s.contract.value, x)
    requires agent in s.metas && s.metas[agent].ticket == Now(s, i)
    requires s.work[Now(s, i)].stage == Running && s.work[Now(s, i)].agent == Some(agent)
    ensures var r := Submit(s, agent, ClearDraft(s.contract.value, x.note), x.env);
            && Now(s, i) in r.reports && r == s.(reports := s.reports[Now(s, i) := r.reports[Now(s, i)]], log := r.log)
            && ClearReport(r.reports[Now(s, i)], s.contract.value, agent, x.env)
  {
    var d := ClearDraft(s.contract.value, x.note);
    assert 0 in d.covers;
    ReferencesAreOk(s.contract.value, s.work[Now(s, i)], x);
    assert MayReport(s, agent, d, x.env);
  }

  lemma HandsBack(s: State, t: Ticket, agent: Agent)
    requires agent in s.metas && s.metas[agent].ticket == t && t in s.work && s.work[t].stage == Running
    ensures HandBack(s, agent, Status.Analysis) ==
              s.(work := s.work[t := s.work[t].(stage := Returned,
                                                result := Some(Handback(Status.Analysis, Some(agent), false)))],
                 dispatches := SetCalls(s.dispatches, t, CallReturned))
  {
  }

  lemma OneCommand(s: State, c: Command)
    ensures Run(s, [c]) == Apply(s, c)
  {
    assert [c][1..] == [];
  }

  lemma FiveCommands(s: State, cs: seq<Command>)
    requires |cs| == 5
    ensures Run(s, cs) == Apply(Apply(Apply(Apply(Apply(s, cs[0]), cs[1]), cs[2]), cs[3]), cs[4])
  {
    assert cs[1..][1..] == cs[2..] && cs[2..][1..] == cs[3..] && cs[3..][1..] == cs[4..] && cs[4..][1..] == [];
    var a := Apply(s, cs[0]);
    var b := Apply(a, cs[1]);
    var c := Apply(b, cs[2]);
    var d := Apply(c, cs[3]);
    assert Run(s, cs) == Run(a, cs[1..]);
    assert Run(a, cs[1..]) == Run(b, cs[2..]);
    assert Run(b, cs[2..]) == Run(c, cs[3..]);
    assert Run(c, cs[3..]) == Run(d, cs[4..]);
    assert Run(d, cs[4..]) == Run(Apply(d, cs[4]), []);
  }

  lemma FreeAgent(s: State, i: nat, agents: seq<Agent>)
    requires Manned(s, agents) && i < SLOTS
    ensures !TakenElsewhere(s, agents[i], i)
  {
  }

  lemma OneMoreClosed(ds: seq<Dispatch>, d: Dispatch)
    requires (forall k | 0 <= k < |ds| :: !Outstanding(ds[k].state)) && d.state == InFlight
    ensures forall e | e in SetCalls(ds + [d], d.payload.ticket, CallReturned) :: !Outstanding(e.state)
  {
  }

  /** Where the first three commands lead: the slot's agent works on the row. */
  function Working(s: State, i: nat, agent: Agent, d: Dispatch): State
    requires s.contract.Some? && i < |s.members| && Now(s, i) in s.work
  {
    s.(work := s.work[Now(s, i) := s.work[Now(s, i)].(agent := Some(agent), stage := Running)],
       dispatches := s.dispatches + [d.(state := InFlight)],
       metas := s.metas[agent := Meta(Now(s, i), s.contract.value.round)],
       members := s.members[i := Member(Some(agent), true)])
  }

  lemma BindsAgent(s: State, i: nat, call: CallId, x: Scene)
    requires Open(s, x) && i < SLOTS && Waiting(s, i, x) && FindCall(s.dispatches, call).None?
    ensures var p := CallFor(s, i);
            PostDispatch(PreDispatch(s, call, p, x.env), call, Answer(Some(x.agents[i]), true, false)) ==
              s.(members := s.members[i := s.members[i].(agent := Some(x.agents[i]))],
                 work := s.work[Now(s, i) := s.work[Now(s, i)].(agent := Some(x.agents[i]), stage := Running)],
                 dispatches := s.dispatches + [Dispatch(call, p, InFlight)])
  {
    var d := Dispatch(call, CallFor(s, i), Unacknowledged);
    Dispatches(s, i, call, x);
    FreeAgent(s, i, x.agents);
    var m := PreDispatch(s, call, d.payload, x.env);
    assert Now(m, i) == Now(s, i);
    Acknowledges(m, i, x.agents[i], s.dispatches, d);
  }

  lemma StartsWork(s: State, i: nat, call: CallId, x: Scene)
    requires Open(s, x) && i < SLOTS && Waiting(s, i, x) && FindCall(s.dispatches, call).None?
    ensures var p := CallFor(s, i);
            var bound := PostDispatch(PreDispatch(s, call, p, x.env), call, Answer(Some(x.agents[i]), true, false));
            Join(bound, x.agents[i], Now(s, i), true, x.env) == Working(s, i, x.agents[i], Dispatch(call, p, InFlight))
  {
    var d := Dispatch(call, CallFor(s, i), InFlight);
    BindsAgent(s, i, call, x);
    var m := PostDispatch(PreDispatch(s, call, d.payload, x.env), call, Answer(Some(x.agents[i]), true, false));
    assert Now(m, i) == Now(s, i);
    Joins(m, i, x.agents[i], s.dispatches, d, x.env);
  }

  /** Where all five lead. */
  function Finished(s: State, i: nat, agent: Agent, d: Dispatch, report: Report, log: seq<Event>): State
    requires s.contract.Some? && i < |s.members| && Now(s, i) in s.work
  {
    s.(work := s.work[Now(s, i) := s.work[Now(s, i)].(agent := Some(agent), stage := Returned,
                                                       result := Some(Handback(Status.Analysis, Some(agent), false)))],
       dispatches := SetCalls(s.dispatches + [d], Now(s, i), CallReturned),
       metas := s.metas[agent := Meta(Now(s, i), s.contract.value.round)],
       members := s.members[i := Member(Some(agent), true)],
       reports := s.reports[Now(s, i) := report], log := log)
  }

  /** The fourth command reported, the fifth hands back. */
  lemma ReportedHandsBack(s: State, i: nat, agent: Agent, d: Dispatch, report: Report, log: seq<Event>)
    requires s.contract.Some? && i < |s.members| && Now(s, i) in s.work
    ensures var m := Working(s, i, agent, d);
            var reported := m.(reports := m.reports[Now(s, i) := report], log := log);
            HandBack(reported, agent, Status.Analysis) ==
            Finished(s, i, agent, d.(state := InFlight), report, log)
  {
    var m := Working(s, i, agent, d);
    HandsBack(m.(reports := m.reports[Now(s, i) := report], log := log), Now(s, i), agent);
  }

  lemma FinishesWork(s: State, i: nat, d: Dispatch, x: Scene) returns (report: Report, log: seq<Event>)
    requires Open(s, x) && i < SLOTS && Waiting(s, i, x) && d.state == InFlight
    ensures ClearReport(report, s.contract.value, x.agents[i], x.env)
    ensures var reported := Submit(Working(s, i, x.agents[i], d), x.agents[i], ClearDraft(s.contract.value, x.note),
                                   x.env);
            HandBack(reported, x.agents[i], Status.Analysis) == Finished(s, i, x.agents[i], d, report, log)
  {
    var m := Working(s, i, x.agents[i], d);
    assert Now(m, i) == Now(s, i);
    Reports(m, i, x.agents[i], x);
    var r := Submit(m, x.agents[i], ClearDraft(s.contract.value, x.note), x.env);
    report, log := r.reports[Now(s, i)], r.log;
    ReportedHandsBack(s, i, x.agents[i], d, report, log);
  }

  lemma FinishedIsDone(s: State, i: nat, d: Dispatch, report: Report, log: seq<Event>, x: Scene)
    requires Open(s, x) && i < SLOTS && Waiting(s, i, x) && ClearReport(report, s.contract.value, x.agents[i], x.env)
    ensures Done(Finished(s, i, x.agents[i], d, report, log), i, x)
  {
    assert Now(Finished(s, i, x.agents[i], d, report, log), i) == Now(s, i);
  }

  lemma FinishedIsAside(s: State, i: nat, agent: Agent, d: Dispatch, report: Report, log: seq<Event>)
    requires s.contract.Some? && i < |s.members| && Now(s, i) in s.work && !AnyLive(s)
    requires d.state == InFlight && d.payload.ticket == Now(s, i)
    ensures var r := Finished(s, i, agent, d, report, log); Aside(s, r, i, agent) && !AnyLive(r)
  {
    OneMoreClosed(s.dispatches, d);
  }

  lemma TwoAtHost(s: State, h: HostCommand, l: HostCommand)
    ensures Apply(Apply(s, AtHost(h)), AtHost(l)) == ApplyHost(ApplyHost(s, h), l)
  {
  }

  lemma ThreeByWorker(s: State, k: WorkerCommand, l: WorkerCommand, m: WorkerCommand)
    ensures Apply(Apply(Apply(s, ByWorker(k)), ByWorker(l)), ByWorker(m)) ==
            ApplyWorker(ApplyWorker(ApplyWorker(s, k), l), m)
  {
  }

  /** The five commands, function by function. */
  lemma TurnRuns(s: State, i: nat, call: CallId, x: Scene)
    requires s.contract.Some? && i < |s.members| && i < |x.agents|
    ensures var agent := x.agents[i];
            var bound := PostDispatch(PreDispatch(s, call, CallFor(s, i), x.env), call,
                                      Answer(Some(agent), true, false));
            var joined := Join(bound, agent, Now(s, i), true, x.env);
            Run(s, Turn(s, i, call, x)) ==
            HandBack(Submit(joined, agent, ClearDraft(s.contract.value, x.note), x.env), agent, Status.Analysis)
  {
    var cs := Turn(s, i, call, x);
    FiveCommands(s, cs);
    TwoAtHost(s, cs[0].h, cs[1].h);
    ThreeByWorker(ApplyHost(ApplyHost(s, cs[0].h), cs[1].h), cs[2].k, cs[3].k, cs[4].k);
  }

  lemma TurnFinishes(s: State, i: nat, call: CallId, x: Scene) returns (report: Report, log: seq<Event>)
    requires Open(s, x) && i < SLOTS && Waiting(s, i, x) && FindCall(s.dispatches, call).None?
    ensures ClearReport(report, s.contract.value, x.agents[i], x.env)
    ensures Run(s, Turn(s, i, call, x)) ==
            Finished(s, i, x.agents[i], Dispatch(call, CallFor(s, i), InFlight), report, log)
  {
    StartsWork(s, i, call, x);
    report, log := FinishesWork(s, i, Dispatch(call, CallFor(s, i), InFlight), x);
    TurnRuns(s, i, call, x);
  }

  /** One slot's five commands finish it and leave the others alone. */
  lemma TurnWorks(s: State, i: nat, call: CallId, x: Scene)
    requires Open(s, x) && i < SLOTS && Waiting(s, i, x) && FindCall(s.dispatches, call).None?
    ensures var r := Run(s, Turn(s, i, call, x)); Aside(s, r, i, x.agents[i]) && !AnyLive(r) && Done(r, i, x)
  {
    var d := Dispatch(call, CallFor(s, i), InFlight);
    var report, log := TurnFinishes(s, i, call, x);
    FinishedIsDone(s, i, d, report, log, x);
    FinishedIsAside(s, i, x.agents[i], d, report, log);
  }

  // ---------- one round ----------

  lemma {:induction false} NewCall(ds: seq<Dispatch>, longest: nat) returns (call: CallId)
    ensures |call| >= longest && forall i | 0 <= i < |ds| :: ds[i].call != call
    decreases |ds|
  {
    if ds == [] {
      call := seq(longest, _ => 'c');
    } else {
      var last := ds[|ds| - 1];
      var n := if |last.call| >= longest then |last.call| + 1 else longest;
      call := NewCall(ds[..|ds| - 1], n);
      assert forall i | 0 <= i < |ds| - 1 :: ds[..|ds| - 1][i] == ds[i];
      assert |last.call| < |call| || |last.call| < longest;
    }
  }

  lemma AsideKeepsDone(s: State, r: State, i: nat, k: nat, x: Scene)
    requires s.contract.Some? && Manned(s, x.agents) && i < SLOTS && k < SLOTS && k != i
    requires Aside(s, r, i, x.agents[i]) && Done(s, k, x)
    ensures Done(r, k, x)
  {
    assert Now(r, k) == Now(s, k) && Now(s, k) != Now(s, i);
    assert x.agents[k] != x.agents[i];
  }

  lemma AsideKeepsWaiting(s: State, r: State, i: nat, k: nat, agent: Agent, x: Scene)
    requires s.contract.Some? && Aside(s, r, i, agent) && k != i && Waiting(s, k, x)
    ensures Waiting(r, k, x)
  {
    assert Now(r, k) == Now(s, k) && Now(s, k) != Now(s, i);
  }

  lemma AsideKeepsOpen(s: State, r: State, i: nat, x: Scene)
    requires Open(s, x) && i < SLOTS && Aside(s, r, i, x.agents[i]) && !AnyLive(r) &&
             r.members[i].agent == Some(x.agents[i])
    ensures Open(r, x)
  {
  }

  /** The first n slots are done, the others wait. */
  ghost predicate Halfway(s: State, n: nat, x: Scene)
    requires s.contract.Some?
  {
    (forall k | 0 <= k < n :: Done(s, k, x)) && (forall k | n <= k < SLOTS :: Waiting(s, k, x))
  }

  /** Slot after slot, the round is brought to its end. */
  lemma {:induction false} TurnsWork(s: State, n: nat, x: Scene) returns (cs: seq<Command>)
    requires Open(s, x) && n <= SLOTS && Halfway(s, n, x)
    ensures var r := Run(s, cs);
            Open(r, x) && r.contract == s.contract && r.plans == s.plans && r.rejected == s.rejected &&
            Halfway(r, SLOTS, x)
    ensures NoRoundCommands(cs)
    decreases SLOTS - n
  {
    if n == SLOTS {
      cs := [];
    } else {
      var call := NewCall(s.dispatches, 0);
      var turn := Turn(s, n, call, x);
      OneMoreDone(s, n, call, x);
      var rest := TurnsWork(Run(s, turn), n + 1, x);
      cs := turn + rest;
      RunAppend(s, turn, rest);
    }
  }

  ghost predicate NoRoundCommands(cs: seq<Command>) {
    forall c | c in cs :: !c.AtRound?
  }

  lemma TurnKeepsOthers(s: State, r: State, n: nat, x: Scene)
    requires Open(s, x) && n < SLOTS && Halfway(s, n, x) && Aside(s, r, n, x.agents[n]) && Done(r, n, x)
    ensures Halfway(r, n + 1, x)
  {
    forall k | 0 <= k < n ensures Done(r, k, x) {
      AsideKeepsDone(s, r, n, k, x);
    }
    forall k | n < k < SLOTS ensures Waiting(r, k, x) {
      AsideKeepsWaiting(s, r, n, k, x.agents[n], x);
    }
  }

  lemma OneMoreDone(s: State, n: nat, call: CallId, x: Scene)
    requires Open(s, x) && n < SLOTS && Halfway(s, n, x) && FindCall(s.dispatches, call).None?
    ensures var r := Run(s, Turn(s, n, call, x));
            Open(r, x) && r.contract == s.contract && r.plans == s.plans && r.rejected == s.rejected &&
            Halfway(r, n + 1, x)
  {
    var r := Run(s, Turn(s, n, call, x));
    TurnWorks(s, n, call, x);
    AsideKeepsOpen(s, r, n, x);
    TurnKeepsOthers(s, r, n, x);
  }

  function Investigation(i: nat, paths: seq<Paths.Path>, brief: Brief): Task {
    Task(SlotName(i), Investigate, paths, [], brief)
  }

  /** A pending investigation without dependencies. */
  ghost predicate Startable(s: State, i: nat, x: Scene)
    requires s.contract.Some?
  {
    var t := Now(s, i);
    t in s.work && Citable(s.work[t], x) &&
    s.work[t] == Row(Investigation(i, s.work[t].task.paths, s.work[t].task.brief), Pending, None, false, None)
  }

  ghost predicate AllStartable(s: State, x: Scene)
    requires s.contract.Some?
  {
    forall i | 0 <= i < SLOTS :: Startable(s, i, x)
  }

  lemma ReservesOne(s: State, slot: nat, met: set<nat>, x: Scene)
    requires s.contract.Some? && slot in met && slot < SLOTS && s.rejected == map[] && Startable(s, slot, x)
    ensures Waiting(ReserveSlot(s, slot, met), slot, x)
  {
    assert MayReserve(s, slot, met);
    assert Now(ReserveSlot(s, slot, met), slot) == Now(s, slot);
  }

  lemma OthersAsTheyWere(s: State, slot: nat, met: set<nat>, i: nat, x: Scene)
    requires s.contract.Some? && i != slot
    ensures var r := ReserveSlot(s, slot, met);
            (Waiting(s, i, x) ==> Waiting(r, i, x)) && (Startable(s, i, x) ==> Startable(r, i, x))
  {
    var r := ReserveSlot(s, slot, met);
    assert Now(r, i) == Now(s, i) && Now(s, i) != Now(s, slot);
    assert Now(s, i) in s.work ==> r.work[Now(s, i)] == s.work[Now(s, i)];
  }

  lemma {:induction false} ReservesAll(s: State, slot: nat, met: set<nat>, x: Scene)
    requires s.contract.Some? && (forall i | 0 <= i < SLOTS :: i in met) && s.rejected == map[]
    requires forall i | 0 <= i < SLOTS :: if i < slot then Waiting(s, i, x) else Startable(s, i, x)
    ensures forall i | 0 <= i < SLOTS :: Waiting(ReserveFrom(s, slot, met), i, x)
    decreases SLOTS - slot
  {
    if slot < SLOTS {
      var r := ReserveSlot(s, slot, met);
      ReservesOne(s, slot, met, x);
      forall i | 0 <= i < SLOTS ensures if i < slot + 1 then Waiting(r, i, x) else Startable(r, i, x) {
        if i != slot {
          OthersAsTheyWere(s, slot, met, i, x);
        }
      }
      ReservesAll(r, slot + 1, met, x);
    }
  }

  lemma NextWaits(s: State, x: Scene)
    requires Ready(s, x.env) && s.contract.value.phase != COMPLETE && s.rejected == map[] && AllStartable(s, x)
    ensures forall i | 0 <= i < SLOTS :: Waiting(Next(s, {}, x.env), i, x)
  {
    var met := MetSlots(s);
    forall i | 0 <= i < SLOTS ensures i in met {
      assert Startable(s, i, x);
    }
    ReservesAll(s, 0, met, x);
    PreparesNothing(ReserveFrom(s, 0, met), x);
  }

  lemma ReaderStays(s: State, t: Ticket)
    requires s.contract.Some? && t in s.work && s.work[t].task.kind == Investigate
    ensures t in Prepared(s, {}).work && Prepared(s, {}).work[t] == s.work[t]
  {
  }

  /** Investigations need no checkout. */
  lemma PreparesNothing(s: State, x: Scene)
    requires s.contract.Some? && forall i | 0 <= i < SLOTS :: Waiting(s, i, x)
    ensures forall i | 0 <= i < SLOTS :: Waiting(Prepared(s, {}), i, x)
  {
    forall i | 0 <= i < SLOTS ensures Waiting(Prepared(s, {}), i, x) {
      assert Waiting(s, i, x) && Now(Prepared(s, {}), i) == Now(s, i);
      ReaderStays(s, Now(s, i));
    }
  }

  /** crew-next reserves all six slots of a round of investigations. */
  lemma NextOpens(s: State, x: Scene)
    requires Open(s, x) && s.rejected == map[] && AllStartable(s, x)
    ensures var r := Next(s, {}, x.env); Open(r, x) && Halfway(r, 0, x)
  {
    NextWaits(s, x);
  }

  /** Any opened round of investigations can be brought to its end. */
  lemma RoundWorks(s: State, x: Scene) returns (cs: seq<Command>)
    requires Open(s, x) && s.rejected == map[] && AllStartable(s, x)
    ensures var r := Run(s, cs);
            Open(r, x) && r.contract == s.contract && r.rejected == map[] && AllReturned(r, true, false, x.env)
    ensures forall c | c in cs && c.AtRound? :: c.n == NextCrew({}, x.env)
  {
    var next := AtRound(NextCrew({}, x.env));
    var m := Apply(s, next);
    NextOpens(s, x);
    var turns := TurnsWork(m, 0, x);
    cs := [next] + turns;
    RunAppend(s, [next], turns);
    OneCommand(s, next);
    DoneIsReturned(Run(s, cs), x);
  }

  lemma DoneIsReturned(s: State, x: Scene)
    requires Open(s, x) && forall k | 0 <= k < SLOTS :: Done(s, k, x)
    ensures AllReturned(s, true, false, x.env)
  {
    forall k | 0 <= k < SLOTS
      ensures HasRow(s, k) && DetailsRead(s, Now(s, k)) && RowSettled(s, k, true, false, x.env)
      ensures s.members[k].agent == Some(x.agents[k])
    {
      assert Done(s, k, x);
    }
  }

  // ---------- the whole way ----------

  /** The shortest decision there is. */
  const GO := "x"

  /** The contract keeps what was agreed on. */
  ghost predicate SameTerms(c: Contract, terms: Terms) {
    && c.goal == terms.goal && c.requirements == terms.requirements
    && c.evidencePaths == terms.evidencePaths && c.outputPaths == terms.outputPaths
  }

  /** What is to be reviewed makes a list of paths of which the capsules keep their budget. */
  ghost predicate ReviewFits(terms: Terms, order: seq<Paths.Path>, task: Ledger.Task) {
    && (forall p :: p in order <==> p in ReviewPaths(Agreed(terms), task)) && PathsOk(order)
    && Fits(Agreed(terms).(decision := Some(GO)), LensTasks(ReviewLenses, order))
  }

  ghost predicate CanReview(terms: Terms, env: Env) {
    env.evidence.ledger.task.Some? && exists order :: ReviewFits(terms, order, env.evidence.ledger.task.value)
  }

  predicate CanStart(terms: Terms, env: Env) {
    TermsOk(terms, env.files) && Fits(Agreed(terms), LensTasks(PlanLenses, terms.evidencePaths))
  }

  /** What the guards of start, review and complete ask of the terms and of the root. */
  ghost predicate MayComplete(terms: Terms, env: Env) {
    env.current && CanStart(terms, env) && RootEvidence(Agreed(terms), env, true) && CanReview(terms, env)
  }

  /** Every round command of the run meets these surroundings, and only these terms are agreed on. */
  ghost predicate Confined(cs: seq<Command>, terms: Terms, env: Env) {
    forall c | c in cs && c.AtRound? :: c.n.env == env && (c.n.StartCrew? ==> c.n.terms == terms)
  }

  /** A round in which the reports cite requirements only. */
  function Plain(agents: seq<Agent>, env: Env): Scene {
    Scene(agents, env, None)
  }

  /** Six tasks as short as can be. */
  function ShortTasks(paths: seq<Paths.Path>): (ts: seq<Task>)
    ensures |ts| == SLOTS
  {
    seq(SLOTS, i requires 0 <= i < SLOTS => Investigation(i, paths, Given(SlotName(i), [SlotName(i)], [GO], GO)))
  }

  lemma SlotNameIsIdentifier(i: nat)
    requires i < SLOTS
    ensures Identifier(SlotName(i)) && TextOk(SlotName(i), 12000) && |SlotName(i)| == 2
  {
  }

  lemma GoIsText(limit: nat)
    requires limit > 0
    ensures TextOk(GO, limit) && TextsOk([GO], limit) && QuotedSize(GO) == 3 && ListSize([GO]) == 5
  {
    assert GO[1..] == "" && [GO][1..] == [];
    assert EscapedSize(GO) == 1;
    assert ItemsSize([GO]) == 4;
  }

  lemma ShortTasksAdmissible(paths: seq<Paths.Path>)
    requires PathsOk(paths)
    ensures Admissible(ShortTasks(paths))
  {
    forall i | 0 <= i < SLOTS ensures TaskOk(ShortTasks(paths)[i]) {
      SlotNameIsIdentifier(i);
      GoIsText(3000);
    }
    SlotNamesDiffer();
    IndependentTasksAdmissible(ShortTasks(paths));
  }

  lemma LensTasksAdmissible(of: Lenses, paths: seq<Paths.Path>)
    requires PathsOk(paths)
    ensures Admissible(LensTasks(of, paths))
  {
    forall i | 0 <= i < SLOTS ensures TaskOk(LensTasks(of, paths)[i]) {
      SlotNameIsIdentifier(i);
    }
    SlotNamesDiffer();
    IndependentTasksAdmissible(LensTasks(of, paths));
  }

  lemma SlotNamesDiffer()
    ensures forall i, j | 0 <= i < j < SLOTS :: SlotName(i) != SlotName(j)
  {
    forall i, j | 0 <= i < j < SLOTS ensures SlotName(i) != SlotName(j) {
      assert SlotName(i)[1] != SlotName(j)[1];
    }
  }

  /** The shortest task keeps the budget that a lens on the same paths keeps, the shortest decision included. */
  lemma ShortTasksFit(terms: Terms, c: Contract)
    requires SameTerms(c, terms) && Fits(Agreed(terms), LensTasks(PlanLenses, terms.evidencePaths))
    ensures Fits(Executing(c, GO), ShortTasks(terms.evidencePaths))
  {
    var short, lens := ShortTasks(terms.evidencePaths), LensTasks(PlanLenses, terms.evidencePaths);
    GoIsText(3000);
    forall i | 0 <= i < SLOTS
      ensures CapsuleSize(terms.goal, terms.requirements, Some(GO), short[i]) <= CAPSULE_LIMIT
    {
      SlotNameIsIdentifier(i);
      QuotedHolds(SlotName(i));
      assert CapsuleSize(terms.goal, terms.requirements, None, lens[i]) <= CAPSULE_LIMIT;
    }
  }

  /** A round of investigations of these paths, one for each slot. */
  ghost predicate AllInvestigate(tasks: seq<Task>, paths: seq<Paths.Path>) {
    |tasks| == SLOTS && forall i | 0 <= i < SLOTS :: tasks[i] == Investigation(i, paths, tasks[i].brief)
  }

  /** The file to cite, if there is one, is at or below these paths. */
  ghost predicate InScope(paths: seq<Paths.Path>, x: Scene) {
    x.note.Some? ==> x.note.value in x.env.files && Within((set p | p in paths), x.note.value)
  }

  lemma NewRoundStartable(s: State, c: Contract, tasks: seq<Task>, paths: seq<Paths.Path>, x: Scene)
    requires AllInvestigate(tasks, paths) && InScope(paths, x)
    ensures AllStartable(NewRound(s, c, tasks), x)
  {
    var r := NewRound(s, c, tasks);
    forall i | 0 <= i < SLOTS ensures Startable(r, i, x) {
      CrewCertificate.FreshRow(s, c, tasks, i);
      assert Scopes(r.work[Now(r, i)]) == set p | p in paths;
    }
  }

  lemma StartOpens(foreign: set<Agent>, agents: seq<Agent>, terms: Terms, env: Env)
    requires MayComplete(terms, env) && Manned(Initial(foreign), agents)
    ensures var r := Start(Initial(foreign), false, terms, true, env);
            && Open(r, Plain(agents, env)) && r.rejected == map[] && AllStartable(r, Plain(agents, env))
            && r.contract.value.phase == PLAN && SameTerms(r.contract.value, terms)
  {
    var tasks := LensTasks(PlanLenses, terms.evidencePaths);
    LensTasksAdmissible(PlanLenses, terms.evidencePaths);
    NewRoundStartable(Initial(foreign), Agreed(terms), tasks, terms.evidencePaths, Plain(agents, env));
  }

  lemma MayExecuteShort(s: State, terms: Terms, env: Env)
    requires Ready(s, env) && AllReturned(s, true, false, env)
    requires s.contract.value.phase == PLAN && SameTerms(s.contract.value, terms) && CanStart(terms, env)
    ensures MayExecute(s, false, GO, ShortTasks(terms.evidencePaths), env)
  {
    ClearIsReturned(s, env);
    GoIsText(8000);
    ShortTasksAdmissible(terms.evidencePaths);
    ShortTasksFit(terms, s.contract.value);
  }

  lemma ExecuteOpens(s: State, agents: seq<Agent>, terms: Terms, env: Env)
    requires Open(s, Plain(agents, env)) && s.rejected == map[] && AllReturned(s, true, false, env)
    requires s.contract.value.phase == PLAN && SameTerms(s.contract.value, terms) && CanStart(terms, env)
    ensures var r := Execute(s, false, GO, ShortTasks(terms.evidencePaths), env);
            && Open(r, Plain(agents, env)) && r.rejected == map[] && AllStartable(r, Plain(agents, env))
            && r.contract.value.phase == EXECUTE && SameTerms(r.contract.value, terms)
  {
    var tasks := ShortTasks(terms.evidencePaths);
    MayExecuteShort(s, terms, env);
    NewRoundStartable(AcceptRound(s, false), Executing(s.contract.value, GO), tasks, terms.evidencePaths,
                      Plain(agents, env));
  }

  /** The scene of a review: its reports cite a file of the artifact. */
  ghost predicate Cited(terms: Terms, x: Scene) {
    x.env.evidence.ledger.task.Some? && x.note.Some? && x.note.value in x.env.files &&
    Within(ReviewPaths(Agreed(terms), x.env.evidence.ledger.task.value), x.note.value)
  }

  /** Passed checks depend on existing files, so there is something to cite. */
  lemma SomethingToCite(terms: Terms, agents: seq<Agent>, env: Env) returns (x: Scene)
    requires RootEvidence(Agreed(terms), env, false)
    ensures x.agents == agents && x.env == env && Cited(terms, x)
  {
    var ledger, checks := env.evidence.ledger, Checks(env);
    var paths := ReviewPaths(Agreed(terms), ledger.task.value);
    var f := Fingerprint(env.files, paths);
    CrewCertificate.ChecksSawTheArtifact(ledger, checks, ledger.task.value, paths, f, ledger.task.value.checks[0]);
    var p :| p in f && f[p].Some?;
    FingerprintAt(env.files, paths, p);
    x := Scene(agents, env, Some(p));
  }

  lemma ReviewIsAllowed(s: State, terms: Terms, order: seq<Paths.Path>, env: Env)
    requires Ready(s, env) && AllReturned(s, true, false, env)
    requires s.contract.value.phase == EXECUTE && SameTerms(s.contract.value, terms) &&
             RootEvidence(Agreed(terms), env, false)
    requires ReviewFits(terms, order, env.evidence.ledger.task.value)
    ensures MayReview(s, GO, order, env)
  {
    ClearIsReturned(s, env);
    SameEvidence(s.contract.value, terms, env);
    GoIsText(8000);
    LensTasksAdmissible(ReviewLenses, order);
  }

  /** A frozen round starts with the artifact as it was frozen. */
  lemma FrozenOpens(s: State, order: seq<Paths.Path>, x: Scene)
    requires Open(s, Plain(x.agents, x.env)) && s.rejected == map[] && x.note.Some? && x.env.evidence.ledger.task.Some?
    ensures var r := OpenReview(s, GO, order, x.env); Open(r, x) && r.rejected == map[]
  {
  }

  lemma FrozenStartable(s: State, order: seq<Paths.Path>, x: Scene)
    requires s.contract.Some? && x.env.evidence.ledger.task.Some? && x.note.Some? && x.note.value in x.env.files
    requires var paths := ReviewPaths(s.contract.value, x.env.evidence.ledger.task.value);
             (forall p :: p in order <==> p in paths) && Within(paths, x.note.value)
    ensures AllStartable(OpenReview(s, GO, order, x.env), x)
  {
    var frozen, tasks := Frozen(s.contract.value, GO, x.env), LensTasks(ReviewLenses, order);
    var round := NewRound(AcceptRound(s, false), frozen, tasks);
    assert (set p | p in order) == frozen.reviewPaths;
    NewRoundStartable(AcceptRound(s, false), frozen, tasks, order, x);
    forall i | 0 <= i < SLOTS ensures Startable(OpenReview(s, GO, order, x.env), i, x) {
      assert Startable(round, i, x) && Now(OpenReview(s, GO, order, x.env), i) == Now(round, i);
    }
  }

  lemma ReviewOpens(s: State, terms: Terms, order: seq<Paths.Path>, x: Scene)
    requires Open(s, Plain(x.agents, x.env)) && s.rejected == map[] && AllReturned(s, true, false, x.env)
    requires s.contract.value.phase == EXECUTE && SameTerms(s.contract.value, terms) && MayComplete(terms, x.env)
    requires Cited(terms, x) && ReviewFits(terms, order, x.env.evidence.ledger.task.value)
    ensures var r := Review(s, GO, order, x.env);
            && Open(r, x) && r.rejected == map[] && AllStartable(r, x)
            && r.contract.value.phase == REVIEW && SameTerms(r.contract.value, terms)
            && r.contract.value.reviewTask == x.env.evidence.ledger.task
  {
    ReviewIsAllowed(s, terms, order, x.env);
    SameEvidence(s.contract.value, terms, x.env);
    FrozenOpens(s, order, x);
    FrozenStartable(s, order, x);
  }

  lemma SameEvidence(c: Contract, terms: Terms, env: Env)
    requires SameTerms(c, terms)
    ensures forall finish :: RootEvidence(c, env, finish) <==> RootEvidence(Agreed(terms), env, finish)
    ensures forall task :: ReviewPaths(c, task) == ReviewPaths(Agreed(terms), task)
    ensures forall order, task :: Reviewable(c, order, task) <==> Reviewable(Agreed(terms), order, task)
  {
  }

  lemma ClearIsReturned(s: State, env: Env)
    requires s.contract.Some? && AllReturned(s, true, false, env)
    ensures AllReturned(s, false, false, env)
  {
    forall i | 0 <= i < SLOTS ensures RowSettled(s, i, false, false, env) {
      assert RowSettled(s, i, true, false, env);
    }
  }

  lemma ConfinedRound(n: RoundCommand, turns: seq<Command>, terms: Terms, env: Env)
    requires n.env == env && (n.StartCrew? ==> n.terms == terms)
    requires forall c | c in turns && c.AtRound? :: c.n == NextCrew({}, env)
    ensures Confined([AtRound(n)] + turns, terms, env)
  {
  }

  /** After a command and a whole round. */
  lemma ThenRound(s: State, n: RoundCommand, terms: Terms, x: Scene) returns (cs: seq<Command>)
    requires var m := ApplyRound(s, n); Open(m, x) && m.rejected == map[] && AllStartable(m, x)
    requires n.env == x.env && (n.StartCrew? ==> n.terms == terms)
    ensures var r := Run(s, cs);
            && Open(r, x) && r.contract == ApplyRound(s, n).contract && r.rejected == map[]
            && AllReturned(r, true, false, x.env)
    ensures Confined(cs, terms, x.env)
  {
    var m := ApplyRound(s, n);
    var turns := RoundWorks(m, x);
    cs := [AtRound(n)] + turns;
    RunAppend(s, [AtRound(n)], turns);
    OneCommand(s, AtRound(n));
    ConfinedRound(n, turns, terms, x.env);
  }

  lemma ReviewIsReachable(s: State, agents: seq<Agent>, terms: Terms, env: Env) returns (cs: seq<Command>)
    requires Open(s, Plain(agents, env)) && s.rejected == map[] && AllReturned(s, true, false, env)
    requires s.contract.value.phase == PLAN && SameTerms(s.contract.value, terms) && MayComplete(terms, env)
    ensures var r := Run(s, cs); MayFinish(r, GO, env)
    ensures Confined(cs, terms, env)
  {
    ExecuteOpens(s, agents, terms, env);
    var execution := ThenRound(s, ExecuteCrew(false, GO, ShortTasks(terms.evidencePaths), env), terms,
                               Plain(agents, env));
    var m := Run(s, execution);
    var x := SomethingToCite(terms, agents, env);
    var order :| ReviewFits(terms, order, env.evidence.ledger.task.value);
    ReviewOpens(m, terms, order, x);
    var review := ThenRound(m, ReviewCrew(GO, order, env), terms, x);
    SameEvidence(Run(m, review).contract.value, terms, env);
    cs := execution + review;
    RunAppend(s, execution, review);
  }

  lemma PlanIsReachable(foreign: set<Agent>, agents: seq<Agent>, terms: Terms, env: Env) returns (cs: seq<Command>)
    requires MayComplete(terms, env) && Manned(Initial(foreign), agents)
    ensures var r := Run(Initial(foreign), cs);
            && Open(r, Plain(agents, env)) && r.rejected == map[] && AllReturned(r, true, false, env)
            && r.contract.value.phase == PLAN && SameTerms(r.contract.value, terms)
    ensures Confined(cs, terms, env)
  {
    StartOpens(foreign, agents, terms, env);
    cs := ThenRound(Initial(foreign), StartCrew(false, terms, true, env), terms, Plain(agents, env));
  }

  lemma ThenFinish(s: State, terms: Terms, env: Env) returns (cs: seq<Command>)
    requires MayFinish(s, GO, env)
    ensures Confined(cs, terms, env) && CrewCertificate.IsComplete(Run(s, cs))
  {
    cs := [AtRound(CompleteCrew(GO, env))];
    OneCommand(s, cs[0]);
  }

  /** A fresh crew whose six agents respond reaches COMPLETE through its three rounds. */
  lemma CompletionIsReachable(foreign: set<Agent>, agents: seq<Agent>, terms: Terms, env: Env)
    returns (cs: seq<Command>)
    requires MayComplete(terms, env) && Manned(Initial(foreign), agents)
    ensures Confined(cs, terms, env) && CrewCertificate.IsComplete(Run(Initial(foreign), cs))
  {
    var plan := PlanIsReachable(foreign, agents, terms, env);
    var m := Run(Initial(foreign), plan);
    var onward := ReviewIsReachable(m, agents, terms, env);
    var end := ThenFinish(Run(m, onward), terms, env);
    RunAppend(m, onward, end);
    RunAppend(Initial(foreign), plan, onward + end);
    cs := plan + (onward + end);
  }

  // ---------- and no other way ----------

  /** What a confined run shows: the phases were entered through their guards. */
  ghost predicate Guarded(s: State, terms: Terms, env: Env) {
    s.contract.Some? ==>
      && SameTerms(s.contract.value, terms)
      && CanStart(terms, env)
      && (s.contract.value.phase == REVIEW ==> CanReview(terms, env))
      && (s.contract.value.phase == COMPLETE ==> MayComplete(terms, env))
  }

  lemma OtherCommandsKeepContract(s: State, c: Command)
    requires !c.AtRound?
    ensures Apply(s, c).contract == s.contract
  {
    match c
    case AtHost(h) => CrewCertificate.HostSameRecord(s, h);
    case AtWait(w) => CrewCertificate.WaitSameRecord(s, w);
    case ByWorker(k) => WorkersKeepContract(s, k);
    case ByRoot(r) => CrewCertificate.RootSameRecord(s, r);
    case AtRound(n) =>
  }

  lemma WorkersKeepContract(s: State, k: WorkerCommand)
    ensures ApplyWorker(s, k).contract == s.contract
  {
  }

  /** No decision is shorter than the shortest one. */
  lemma GoIsShortest(goal: string, requirements: seq<string>, decision: string, tasks: seq<Task>)
    requires Decision(decision) && CapsulesFit(goal, requirements, Some(decision), tasks)
    ensures CapsulesFit(goal, requirements, Some(GO), tasks)
  {
    GoIsText(8000);
    QuotedHolds(decision);
    forall i | 0 <= i < |tasks| ensures CapsuleSize(goal, requirements, Some(GO), tasks[i]) <= CAPSULE_LIMIT {
      assert CapsuleSize(goal, requirements, Some(decision), tasks[i]) <= CAPSULE_LIMIT;
    }
  }

  lemma LensPathsOk(paths: seq<Paths.Path>)
    requires Admissible(LensTasks(ReviewLenses, paths))
    ensures PathsOk(paths)
  {
    var tasks := LensTasks(ReviewLenses, paths);
    assert tasks[0] in tasks && TaskOk(tasks[0]) && tasks[0].paths == paths;
  }

  lemma ReviewIsGuarded(s: State, decision: string, order: seq<Paths.Path>, terms: Terms, env: Env)
    requires MayReview(s, decision, order, env) && SameTerms(s.contract.value, terms)
    ensures CanReview(terms, env)
  {
    SameEvidence(s.contract.value, terms, env);
    LensPathsOk(order);
    GoIsShortest(terms.goal, terms.requirements, decision, LensTasks(ReviewLenses, order));
    assert ReviewFits(terms, order, env.evidence.ledger.task.value);
  }

  lemma RoundIsGuarded(s: State, n: RoundCommand, terms: Terms, env: Env)
    requires Guarded(s, terms, env) && n.env == env && (n.StartCrew? ==> n.terms == terms)
    ensures Guarded(ApplyRound(s, n), terms, env)
  {
    if s.contract.Some? {
      SameEvidence(s.contract.value, terms, env);
    }
    if n.ReviewCrew? && MayReview(s, n.decision, n.order, n.env) {
      ReviewIsGuarded(s, n.decision, n.order, terms, env);
    }
  }

  lemma {:induction false} RunIsGuarded(s: State, cs: seq<Command>, terms: Terms, env: Env)
    requires Guarded(s, terms, env) && Confined(cs, terms, env)
    ensures Guarded(Run(s, cs), terms, env)
    decreases |cs|
  {
    if cs != [] {
      if cs[0].AtRound? {
        RoundIsGuarded(s, cs[0].n, terms, env);
      } else {
        OtherCommandsKeepContract(s, cs[0]);
      }
      RunIsGuarded(Apply(s, cs[0]), cs[1..], terms, env);
    }
  }

  /** However its obligations are split, a contract too long for the capsule of a task is never agreed on. */
  lemma OverlongNeverStarts(foreign: set<Agent>, cs: seq<Command>, terms: Terms, env: Env)
    requires Confined(cs, terms, env)
    requires |terms.goal| + Letters(terms.requirements) + Letters(terms.evidencePaths) > CAPSULE_LIMIT - 150
    ensures Run(Initial(foreign), cs).contract == None
  {
    RunIsGuarded(Initial(foreign), cs, terms, env);
    if Run(Initial(foreign), cs).contract.Some? {
      StartedIsShort(terms, env);
    }
  }

  lemma StartedIsShort(terms: Terms, env: Env)
    requires CanStart(terms, env)
    ensures |terms.goal| + Letters(terms.requirements) + Letters(terms.evidencePaths) <= CAPSULE_LIMIT - 150
  {
    var tasks := LensTasks(PlanLenses, terms.evidencePaths);
    CapsuleHolds(terms.goal, terms.requirements, None, tasks[0]);
    assert tasks[0].paths == terms.evidencePaths;
  }

  lemma {:induction false} LongerThanAll(agents: set<Agent>) returns (n: nat)
    ensures forall a | a in agents :: |a| < n
  {
    if agents == {} {
      n := 0;
    } else {
      var a :| a in agents;
      var m := LongerThanAll(agents - {a});
      n := if |a| < m then m else |a| + 1;
      assert forall b | b in agents :: b == a || b in agents - {a};
    }
  }

  lemma SixFreeAgents(foreign: set<Agent>) returns (agents: seq<Agent>)
    ensures Manned(Initial(foreign), agents)
  {
    var n := LongerThanAll(foreign);
    agents := seq(SLOTS, i requires 0 <= i < SLOTS => seq(n + i, _ => 'a'));
    forall k, l | 0 <= k < l < SLOTS ensures agents[k] != agents[l] {
      assert |agents[k]| == n + k && |agents[l]| == n + l;
    }
    forall k | 0 <= k < SLOTS ensures agents[k] !in foreign {
      assert |agents[k]| == n + k;
    }
  }

  /** Under given terms and surroundings, a fresh crew has a run to COMPLETE if and only if the guards of start, review
      and complete hold of them: no other guard, of content or of size, can stop six agents that respond, and nothing
      leads past these. */
  lemma CompletionIsExact(foreign: set<Agent>, terms: Terms, env: Env)
    ensures (exists cs :: Confined(cs, terms, env) && CrewCertificate.IsComplete(Run(Initial(foreign), cs))) <==>
            MayComplete(terms, env)
  {
    if MayComplete(terms, env) {
      var agents := SixFreeAgents(foreign);
      var cs := CompletionIsReachable(foreign, agents, terms, env);
    }
    forall cs | Confined(cs, terms, env) && CrewCertificate.IsComplete(Run(Initial(foreign), cs))
      ensures MayComplete(terms, env)
    {
      RunIsGuarded(Initial(foreign), cs, terms, env);
    }
  }
}
