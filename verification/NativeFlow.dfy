/** The second wire protocol's observations (native_flow.py): a mailbox wake is not completion, a list of agents counts
    as a whole or not at all, and an old list never answers for newer work or a newer wake. */
module NativeFlow {
  import opened Wrappers
  import opened Work
  import opened Crew
  import opened CrewCalls
  import opened CrewWaits
  import Traces

  /** The canonical name the host gave to a spawned agent. */
  type Handle = string

  datatype Kind = WaitAgent | ListAgents

  /** One listed agent; None marks what is missing or not recognised. */
  datatype Item = Item(name: Option<Handle>, status: Option<Native>)

  /** wake: the answer has the form of a mailbox result; agents: it has a list of admissible length. */
  datatype Response = Response(error: bool, wake: bool, agents: Option<seq<Item>>)

  /** rank is the order in which calls were recorded. */
  datatype Call = Call(kind: Kind, rank: nat, plan: nat, snapshot: map<Handle, Saved>, result: Option<Response>)

  datatype Heard = Heard(name: Handle, status: Native)

  // ---------- what a list says ----------

  predicate ItemOk(items: seq<Item>, i: nat, snapshot: map<Handle, Saved>)
    requires i < |items|
  {
    && items[i].name.Some?
    && (forall j | 0 <= j < i :: items[j].name != items[i].name)
    && (items[i].name.value in snapshot ==> items[i].status.Some?)
  }

  /** Every agent is named once, and those of this crew have a known status. */
  predicate WellFormed(items: seq<Item>, snapshot: map<Handle, Saved>) {
    forall i | 0 <= i < |items| :: ItemOk(items, i, snapshot)
  }

  /** The statuses of this crew's agents, in the order listed. */
  function Ours(items: seq<Item>, snapshot: map<Handle, Saved>): (heard: seq<Heard>)
    requires WellFormed(items, snapshot)
    ensures forall h | h in heard :: h.name in snapshot
  {
    if items == [] then []
    else
      var last := |items| - 1;
      assert ItemOk(items, last, snapshot);
      assert WellFormed(items[..last], snapshot) by {
        assert forall i | 0 <= i < last :: ItemOk(items, i, snapshot) ==> ItemOk(items[..last], i, snapshot);
      }
      var name := items[last].name.value;
      Ours(items[..last], snapshot) + if name in snapshot then [Heard(name, items[last].status.value)] else []
  }

  lemma OneMoreItem(items: seq<Item>, i: nat, snapshot: map<Handle, Saved>)
    requires i < |items| && WellFormed(items[..i], snapshot) && ItemOk(items, i, snapshot)
    ensures WellFormed(items[..i + 1], snapshot)
    ensures var name := items[i].name.value;
            Ours(items[..i + 1], snapshot) ==
            Ours(items[..i], snapshot) + if name in snapshot then [Heard(name, items[i].status.value)] else []
  {
    var more := items[..i + 1];
    forall k | 0 <= k < |more| ensures ItemOk(more, k, snapshot) {
      if k < i {
        assert ItemOk(items[..i], k, snapshot);
      }
    }
    assert more[..i] == items[..i];
  }

  /** The loop that reads the list: the first bad entry spoils it. */
  method Read(items: seq<Item>, snapshot: map<Handle, Saved>) returns (valid: bool, heard: seq<Heard>)
    ensures valid <==> WellFormed(items, snapshot)
    ensures valid ==> heard == Ours(items, snapshot)
  {
    var seen: set<Handle> := {};
    heard := [];
    for i := 0 to |items|
      invariant WellFormed(items[..i], snapshot)
      invariant seen == set j | 0 <= j < i && items[j].name.Some? :: items[j].name.value
      invariant heard == Ours(items[..i], snapshot)
    {
      var item := items[i];
      if item.name.None? || item.name.value in seen || (item.name.value in snapshot && item.status.None?) {
        assert !ItemOk(items, i, snapshot);
        return false, heard;
      }
      seen := seen + {item.name.value};
      OneMoreItem(items, i, snapshot);
      if item.name.value in snapshot {
        heard := heard + [Heard(item.name.value, item.status.value)];
      }
    }
    assert items[..|items|] == items;
    valid := true;
  }

  // ---------- what it does ----------

  /** The row is of the round and its dispatches are those the list saw. */
  predicate Current(s: State, saved: Saved) {
    s.contract.Some? && saved.ticket in s.work && saved.ticket.plan == s.contract.value.plan &&
    Epoch(s.dispatches, saved.ticket) == saved.epoch
  }

  function Note(s: State, call: CallId, saved: Saved, status: Native): State
    requires Current(s, saved)
  {
    var t := saved.ticket;
    s.(observed := s.observed[t := Observation(status, s.work[t].agent, saved.epoch, t.plan, call)])
  }

  function Learn(s: State, call: CallId, saved: Saved, status: Native): (r: State)
    ensures r == s.(work := r.work, observed := r.observed, dispatches := r.dispatches)
  {
    if !Current(s, saved) then s
    else
      match Landing(status, s.work[saved.ticket].stage)
      case None => Note(s, call, saved, status)
      case Some(stage) => Land(Note(s, call, saved, status), saved.ticket, stage)
  }

  function LearnAll(s: State, call: CallId, snapshot: map<Handle, Saved>, heard: seq<Heard>): (r: State)
    requires forall h | h in heard :: h.name in snapshot
    ensures r == s.(work := r.work, observed := r.observed, dispatches := r.dispatches)
    decreases |heard|
  {
    if heard == [] then s
    else LearnAll(Learn(s, call, snapshot[heard[0].name], heard[0].status), call, snapshot, heard[1..])
  }

  /** The observation ledger beside the crew tables: due names the wake that no list has answered yet, elsewhere the
      handles bound by other roots. */
  datatype View = View(crew: State, targets: map<nat, Handle>, calls: map<CallId, Call>, due: Option<CallId>,
                       elsewhere: set<Handle>)

  /** target_in: the handle of a slot, or else the agent of its row. */
  function Target(v: View, t: Ticket): Option<Handle> {
    if t.slot in v.targets then Some(v.targets[t.slot])
    else if t in v.crew.work then v.crew.work[t].agent else None
  }

  /** A later slot with the same handle overwrites an earlier one. */
  function SnapshotBelow(v: View, n: nat): map<Handle, Saved>
    requires v.crew.contract.Some?
  {
    if n == 0 then map[]
    else
      var rest := SnapshotBelow(v, n - 1);
      var t := Now(v.crew, n - 1);
      if t in v.crew.work && v.crew.work[t].stage != Pending && Target(v, t).Some?
      then rest[Target(v, t).value := Saved(t, Epoch(v.crew.dispatches, t))] else rest
  }

  function Pre(v: View, call: CallId, kind: Kind, env: Env): View {
    if !Ready(v.crew, env) || call in v.calls then v
    else v.(calls := v.calls[call := Call(kind, |v.calls|, v.crew.contract.value.plan, SnapshotBelow(v, SLOTS), None)])
  }

  /** A wake recorded after the list was asked for. */
  predicate NewerWake(v: View, rank: nat) {
    v.due.Some? && v.due.value in v.calls && v.calls[v.due.value].rank > rank
  }

  predicate AllCurrentEpochs(s: State, snapshot: map<Handle, Saved>) {
    forall h | h in snapshot :: Epoch(s.dispatches, snapshot[h].ticket) == snapshot[h].epoch
  }

  function Answered(v: View, call: CallId, r: Response): View
    requires call in v.calls
  {
    var c := v.calls[call];
    if v.crew.contract.None? || v.crew.contract.value.plan != c.plan || r.error then v
    else if c.kind == WaitAgent then (if r.wake then v.(due := Some(call)) else v)
    else if r.agents.None? || !WellFormed(r.agents.value, c.snapshot) then v
    else
      var crew := LearnAll(v.crew, call, c.snapshot, Ours(r.agents.value, c.snapshot));
      v.(crew := crew, due := if AllCurrentEpochs(crew, c.snapshot) && !NewerWake(v, c.rank) then None else v.due)
  }

  function Post(v: View, call: CallId, kind: Kind, r: Response): View {
    if call !in v.calls || v.calls[call].kind != kind || v.calls[call].result.Some? then v
    else
      var a := Answered(v, call, r);
      a.(calls := a.calls[call := v.calls[call].(result := Some(r))])
  }

  // ---------- handles ----------

  /** The acknowledgement of a spawn names its slot's handle, unless some slot of some root has it. */
  function BindTarget(v: View, slot: nat, h: Handle): View {
    if h in v.elsewhere || exists k :: k in v.targets && v.targets[k] == h then v
    else v.(targets := v.targets[slot := h])
  }

  /** Another root binds a handle no slot of this one has. */
  function BindTargetElsewhere(v: View, h: Handle): View {
    if exists k :: k in v.targets && v.targets[k] == h then v else v.(elsewhere := v.elsewhere + {h})
  }

  /** A handle is one slot's of one root. */
  ghost predicate OneSlotPerHandle(v: View) {
    && (forall k | k in v.targets :: v.targets[k] !in v.elsewhere)
    && (forall j, k | j in v.targets && k in v.targets && v.targets[j] == v.targets[k] :: j == k)
  }

  // ---------- what is promised ----------

  predicate Reads(s: State, saved: Saved, t: Ticket) {
    saved == Saved(t, Epoch(s.dispatches, t)) && s.contract.Some? && t.plan == s.contract.value.plan
  }

  lemma NoteTouches(s: State, call: CallId, saved: Saved, status: Native, t: Ticket)
    requires Current(s, saved) && saved.ticket != t
    ensures Untouched(s, Note(s, call, saved, status), t)
  {
  }

  lemma LearnTouches(s: State, call: CallId, saved: Saved, status: Native, t: Ticket)
    requires !Reads(s, saved, t)
    ensures Untouched(s, Learn(s, call, saved, status), t)
  {
    if Current(s, saved) {
      var u := saved.ticket;
      var noted := Note(s, call, saved, status);
      NoteTouches(s, call, saved, status, t);
      if Landing(status, s.work[u].stage).Some? {
        var stage := Landing(status, s.work[u].stage).value;
        LandTouches(noted, u, stage, t);
        UntouchedTwice(s, noted, Land(noted, u, stage), t);
      }
    }
  }

  lemma LearnKeepsCalls(s: State, call: CallId, saved: Saved, status: Native)
    ensures var r := Learn(s, call, saved, status);
            KeepsCalls(s.dispatches, r.dispatches) && |r.dispatches| == |s.dispatches|
  {
  }

  lemma {:induction false} LearnAllKeepsCalls(s: State, call: CallId, snapshot: map<Handle, Saved>, heard: seq<Heard>)
    requires forall h | h in heard :: h.name in snapshot
    ensures var r := LearnAll(s, call, snapshot, heard);
            KeepsCalls(s.dispatches, r.dispatches) && |r.dispatches| == |s.dispatches|
    decreases |heard|
  {
    if heard != [] {
      LearnKeepsCalls(s, call, snapshot[heard[0].name], heard[0].status);
      LearnAllKeepsCalls(Learn(s, call, snapshot[heard[0].name], heard[0].status), call, snapshot, heard[1..]);
    }
  }

  lemma {:induction false} LearnAllTouches(s: State, call: CallId, snapshot: map<Handle, Saved>, heard: seq<Heard>,
                                           t: Ticket)
    requires (forall h | h in heard :: h.name in snapshot) && (forall h | h in snapshot :: !Reads(s, snapshot[h], t))
    ensures Untouched(s, LearnAll(s, call, snapshot, heard), t)
    decreases |heard|
  {
    if heard != [] {
      var m := Learn(s, call, snapshot[heard[0].name], heard[0].status);
      LearnTouches(s, call, snapshot[heard[0].name], heard[0].status, t);
      LearnKeepsCalls(s, call, snapshot[heard[0].name], heard[0].status);
      EpochNeverReturns(s.dispatches, m.dispatches, t);
      LearnAllTouches(m, call, snapshot, heard[1..], t);
      UntouchedTwice(s, m, LearnAll(s, call, snapshot, heard), t);
    }
  }

  lemma {:induction false} SnapshotIsPresent(v: View, n: nat)
    requires v.crew.contract.Some?
    ensures forall h | h in SnapshotBelow(v, n) ::
              var saved := SnapshotBelow(v, n)[h]; saved == Saved(saved.ticket, Epoch(v.crew.dispatches, saved.ticket))
  {
    if n > 0 {
      SnapshotIsPresent(v, n - 1);
    }
  }

  /** An older list does not answer a newer wake, and one that saw an old dispatch answers none. */
  lemma NewerWakeStaysDue(v: View, call: CallId, r: Response)
    requires call in v.calls && v.calls[call].kind == ListAgents
    ensures var z := Post(v, call, ListAgents, r);
            z.due == v.due ||
            (z.due.None? && !NewerWake(v, v.calls[call].rank) && AllCurrentEpochs(v.crew, v.calls[call].snapshot))
  {
    var c := v.calls[call];
    if r.agents.Some? && WellFormed(r.agents.value, c.snapshot) {
      var heard := Ours(r.agents.value, c.snapshot);
      LearnAllKeepsCalls(v.crew, call, c.snapshot, heard);
      var learned := LearnAll(v.crew, call, c.snapshot, heard);
      forall t: Ticket ensures Epoch(learned.dispatches, t) == Epoch(v.crew.dispatches, t) {
        EpochNeverReturns(v.crew.dispatches, learned.dispatches, t);
      }
    }
  }

  // ---------- runs ----------

  /** Everything that changes the crew's tables or the ledger beside them. */
  datatype ViewCommand =
    | OnCrew(command: Crew.Command)
    | Ask(call: CallId, kind: Kind, env: Env)
    | Hear(call: CallId, kind: Kind, response: Response)
    | Name(slot: nat, handle: Handle)
    | NameElsewhere(handle: Handle)

  ghost function Step(v: View, c: ViewCommand): View {
    match c
    case OnCrew(command) => v.(crew := Crew.Apply(v.crew, command))
    case Ask(call, kind, env) => Pre(v, call, kind, env)
    case Hear(call, kind, r) => Post(v, call, kind, r)
    case Name(slot, h) => BindTarget(v, slot, h)
    case NameElsewhere(h) => BindTargetElsewhere(v, h)
  }

  ghost function Steps(v: View, cs: seq<ViewCommand>): View
    decreases |cs|
  {
    if cs == [] then v else Steps(Step(v, cs[0]), cs[1..])
  }

  function Unseen(foreign: set<Agent>, elsewhere: set<Handle>): View {
    View(Initial(foreign), map[], map[], None, elsewhere)
  }

  /** Calls are appended; what was asked and seen is never rewritten, and an answer stays the answer. */
  ghost predicate KeepsAsked(v: View, w: View) {
    && KeepsCalls(v.crew.dispatches, w.crew.dispatches) && |v.calls| <= |w.calls|
    && (forall c | c in v.calls ::
          c in w.calls && w.calls[c].(result := None) == v.calls[c].(result := None) &&
          (v.calls[c].result.Some? ==> w.calls[c] == v.calls[c]))
  }

  lemma KeepsAskedTwice(v: View, m: View, w: View)
    requires KeepsAsked(v, m) && KeepsAsked(m, w)
    ensures KeepsAsked(v, w)
  {
  }

  lemma AskKeeps(v: View, call: CallId, kind: Kind, env: Env)
    ensures KeepsAsked(v, Pre(v, call, kind, env))
  {
  }

  lemma AnsweredKeepsCalls(v: View, call: CallId, r: Response)
    requires call in v.calls
    ensures var a := Answered(v, call, r);
            a.calls == v.calls && |a.crew.dispatches| == |v.crew.dispatches| &&
            KeepsCalls(v.crew.dispatches, a.crew.dispatches)
  {
    var c := v.calls[call];
    if r.agents.Some? && WellFormed(r.agents.value, c.snapshot) {
      LearnAllKeepsCalls(v.crew, call, c.snapshot, Ours(r.agents.value, c.snapshot));
    }
  }

  lemma HearKeeps(v: View, call: CallId, kind: Kind, r: Response)
    ensures KeepsAsked(v, Post(v, call, kind, r))
  {
    if call in v.calls {
      AnsweredKeepsCalls(v, call, r);
      SameSize(v.calls, call, v.calls[call].(result := Some(r)));
    }
  }

  lemma SameSize(m: map<CallId, Call>, k: CallId, c: Call)
    requires k in m
    ensures |m[k := c]| == |m|
  {
    assert m[k := c].Keys == m.Keys;
    assert |m.Keys| == |m| && |m[k := c].Keys| == |m[k := c]|;
  }

  lemma StepKeeps(v: View, c: ViewCommand)
    ensures KeepsAsked(v, Step(v, c))
  {
    match c
    case OnCrew(command) =>
      CommandKeepsCalls(v.crew, command);
      CrewKeepsAsked(v, Crew.Apply(v.crew, command));
    case Ask(call, kind, env) => AskKeeps(v, call, kind, env);
    case Hear(call, kind, r) => HearKeeps(v, call, kind, r);
    case Name(slot, h) => NamesKeepAsked(v, slot, h);
    case NameElsewhere(h) => NamesKeepAsked(v, 0, h);
  }

  lemma CrewKeepsAsked(v: View, crew: State)
    requires KeepsCalls(v.crew.dispatches, crew.dispatches)
    ensures KeepsAsked(v, v.(crew := crew))
  {
  }

  lemma NamesKeepAsked(v: View, slot: nat, h: Handle)
    ensures KeepsAsked(v, BindTarget(v, slot, h)) && KeepsAsked(v, BindTargetElsewhere(v, h))
  {
  }

  /** No run rewrites a call, what it saw, or its answer. */
  lemma {:induction false} RunKeepsAsked(v: View, cs: seq<ViewCommand>)
    ensures KeepsAsked(v, Steps(v, cs))
    decreases |cs|
  {
    if cs != [] {
      StepKeeps(v, cs[0]);
      RunKeepsAsked(Step(v, cs[0]), cs[1..]);
      KeepsAskedTwice(v, Step(v, cs[0]), Steps(v, cs));
    }
  }

  lemma AskedSeesThePresent(v: View, call: CallId, kind: Kind, env: Env)
    requires Pre(v, call, kind, env) != v
    ensures v.crew.contract.Some?
    ensures var c := Pre(v, call, kind, env).calls[call];
            c.plan == v.crew.contract.value.plan &&
            forall h | h in c.snapshot :: c.snapshot[h].epoch == Epoch(v.crew.dispatches, c.snapshot[h].ticket)
  {
    SnapshotIsPresent(v, SLOTS);
  }

  /** An answer touches only tickets the call saw as they are. */
  lemma AnswerTouches(v: View, call: CallId, kind: Kind, r: Response, t: Ticket)
    requires !Untouched(v.crew, Post(v, call, kind, r).crew, t)
    ensures call in v.calls && v.crew.contract.Some? && v.crew.contract.value.plan == v.calls[call].plan == t.plan
    ensures exists h :: h in v.calls[call].snapshot &&
                        v.calls[call].snapshot[h] == Saved(t, Epoch(v.crew.dispatches, t))
  {
    var c := v.calls[call];
    if forall h | h in c.snapshot :: !Reads(v.crew, c.snapshot[h], t) {
      if r.agents.Some? && WellFormed(r.agents.value, c.snapshot) {
        LearnAllTouches(v.crew, call, c.snapshot, Ours(r.agents.value, c.snapshot), t);
      }
    }
  }

  /** A late list never touches newer work: whatever the crew and its observer did in between, a ticket that differs
      afterwards is of the round the list was asked in and got no dispatch since. */
  lemma LateListIsHarmless(v: View, call: CallId, kind: Kind, env: Env, middle: seq<ViewCommand>, r: Response,
                           t: Ticket)
    ensures var p := Pre(v, call, kind, env);
            var m := Steps(p, middle);
            p != v && !Untouched(m.crew, Post(m, call, kind, r).crew, t) ==>
              && v.crew.contract.Some? && m.crew.contract.Some?
              && m.crew.contract.value.plan == v.crew.contract.value.plan == t.plan
              && |v.crew.dispatches| <= |m.crew.dispatches|
              && forall i | |v.crew.dispatches| <= i < |m.crew.dispatches| :: m.crew.dispatches[i].payload.ticket != t
  {
    var p := Pre(v, call, kind, env);
    if p != v && !Untouched(Steps(p, middle).crew, Post(Steps(p, middle), call, kind, r).crew, t) {
      LateList(v, call, kind, env, middle, r, t);
    }
  }

  lemma LateList(v: View, call: CallId, kind: Kind, env: Env, middle: seq<ViewCommand>, r: Response, t: Ticket)
    requires Pre(v, call, kind, env) != v
    requires var m := Steps(Pre(v, call, kind, env), middle); !Untouched(m.crew, Post(m, call, kind, r).crew, t)
    ensures var m := Steps(Pre(v, call, kind, env), middle);
            && v.crew.contract.Some? && m.crew.contract.Some?
            && m.crew.contract.value.plan == v.crew.contract.value.plan == t.plan
            && |v.crew.dispatches| <= |m.crew.dispatches|
            && forall i | |v.crew.dispatches| <= i < |m.crew.dispatches| :: m.crew.dispatches[i].payload.ticket != t
  {
    var p := Pre(v, call, kind, env);
    var m := Steps(p, middle);
    AskedSeesThePresent(v, call, kind, env);
    RunKeepsAsked(p, middle);
    AnswerTouches(m, call, kind, r, t);
    EpochNeverReturns(v.crew.dispatches, m.crew.dispatches, t);
  }

  /** An answer is taken once: whatever happens in between, a second one changes nothing. */
  lemma AnsweredOnce(v: View, call: CallId, kind: Kind, first: Response, middle: seq<ViewCommand>, second: Response)
    requires call in v.calls && v.calls[call].kind == kind
    ensures var m := Steps(Post(v, call, kind, first), middle); Post(m, call, kind, second) == m
  {
    RunKeepsAsked(Post(v, call, kind, first), middle);
  }

  // ---------- what an observer may rely on ----------

  /** The commands lead from one view to the other. */
  ghost predicate LeadsView(v: View, cs: seq<ViewCommand>, w: View) {
    Traces.Leads(Step, v, cs, w)
  }

  lemma {:induction false} LeadsViewIsRun(v: View, cs: seq<ViewCommand>, w: View)
    ensures LeadsView(v, cs, w) <==> w == Steps(v, cs)
    decreases |cs|
  {
    if cs == [] {
      Traces.LeadsNowhere(Step, v, w);
    } else {
      Traces.LeadsFrom(Step, v, cs, w);
      LeadsViewIsRun(Step(v, cs[0]), cs[1..], w);
    }
  }

  /** The call that was recorded saw the present dispatches of every handle it names. */
  ghost predicate SeesPresent(w: View, call: CallId) {
    call in w.calls && w.calls[call].result.None? &&
    forall h | h in w.calls[call].snapshot ::
      w.calls[call].snapshot[h].epoch == Epoch(w.crew.dispatches, w.calls[call].snapshot[h].ticket)
  }

  lemma AskSeesPresent(v: View, call: CallId, kind: Kind, env: Env)
    requires Pre(v, call, kind, env) != v
    ensures SeesPresent(Pre(v, call, kind, env), call)
  {
    AskedSeesThePresent(v, call, kind, env);
  }

  /** Only tickets that the call saw as they are may differ; its answer is taken, and one taken before changes
      nothing. */
  ghost predicate Heeded(v: View, w: View, call: CallId) {
    && (forall t | !Untouched(v.crew, w.crew, t) ::
          call in v.calls && exists h :: h in v.calls[call].snapshot &&
                                         v.calls[call].snapshot[h] == Saved(t, Epoch(v.crew.dispatches, t)))
    && (call in v.calls && v.calls[call].result.Some? ==> w == v)
  }

  lemma HearIsHeeded(v: View, call: CallId, kind: Kind, r: Response)
    ensures Heeded(v, Post(v, call, kind, r), call)
  {
    forall t | !Untouched(v.crew, Post(v, call, kind, r).crew, t)
      ensures call in v.calls && exists h :: h in v.calls[call].snapshot &&
                                             v.calls[call].snapshot[h] == Saved(t, Epoch(v.crew.dispatches, t))
    {
      AnswerTouches(v, call, kind, r, t);
    }
  }

  /** Handles are one slot's of one root, calls are ranked, what is due is a wake. */
  ghost predicate Kept(v: View) {
    OneSlotPerHandle(v) && Ordered(v)
  }

  lemma LeadsIsKept(foreign: set<Agent>, elsewhere: set<Handle>, cs: seq<ViewCommand>, v: View)
    requires LeadsView(Unseen(foreign, elsewhere), cs, v)
    ensures Kept(v)
  {
    LeadsViewIsRun(Unseen(foreign, elsewhere), cs, v);
    RunKeepsHandles(Unseen(foreign, elsewhere), cs);
    RunKeepsOrder(Unseen(foreign, elsewhere), cs);
  }

  // ---------- what is due ----------

  /** Calls are ranked in the order they were recorded, and what is due is a wake. */
  ghost predicate Ordered(v: View) {
    && (forall a | a in v.calls :: v.calls[a].rank < |v.calls|)
    && (forall a, b | a in v.calls && b in v.calls && a != b :: v.calls[a].rank != v.calls[b].rank)
    && (v.due.Some? ==> v.due.value in v.calls && v.calls[v.due.value].kind == WaitAgent)
  }

  /** An answer marks its call and may make or settle what is due. */
  ghost predicate Marks(v: View, w: View, call: CallId, r: Response) {
    && call in v.calls && w.calls == v.calls[call := v.calls[call].(result := Some(r))]
    && (w.due == v.due || w.due.None? || (w.due == Some(call) && v.calls[call].kind == WaitAgent))
  }

  lemma PostMarks(v: View, call: CallId, kind: Kind, r: Response)
    ensures Post(v, call, kind, r) == v || Marks(v, Post(v, call, kind, r), call, r)
  {
    if call in v.calls {
      AnsweredKeepsCalls(v, call, r);
    }
  }

  lemma MarksKeepsOrder(v: View, w: View, call: CallId, r: Response)
    requires Ordered(v) && Marks(v, w, call, r)
    ensures Ordered(w)
  {
    SameSize(v.calls, call, v.calls[call].(result := Some(r)));
  }

  lemma HearKeepsOrder(v: View, call: CallId, kind: Kind, r: Response)
    requires Ordered(v)
    ensures Ordered(Post(v, call, kind, r))
  {
    PostMarks(v, call, kind, r);
    if Post(v, call, kind, r) != v {
      MarksKeepsOrder(v, Post(v, call, kind, r), call, r);
    }
  }

  lemma AskKeepsOrder(v: View, call: CallId, kind: Kind, env: Env)
    requires Ordered(v)
    ensures Ordered(Pre(v, call, kind, env))
  {
  }

  /** The crew's own commands and handles leave the calls and what is due alone. */
  lemma OthersKeepOrder(v: View, w: View)
    requires Ordered(v) && w.calls == v.calls && w.due == v.due
    ensures Ordered(w)
  {
  }

  lemma StepKeepsOrder(v: View, c: ViewCommand)
    requires Ordered(v)
    ensures Ordered(Step(v, c))
  {
    match c
    case OnCrew(command) => OthersKeepOrder(v, v.(crew := Crew.Apply(v.crew, command)));
    case Ask(call, kind, env) => AskKeepsOrder(v, call, kind, env);
    case Hear(call, kind, r) => HearKeepsOrder(v, call, kind, r);
    case Name(slot, h) => OthersKeepOrder(v, BindTarget(v, slot, h));
    case NameElsewhere(h) => OthersKeepOrder(v, BindTargetElsewhere(v, h));
  }

  lemma {:induction false} RunKeepsOrder(v: View, cs: seq<ViewCommand>)
    requires Ordered(v)
    ensures Ordered(Steps(v, cs))
    decreases |cs|
  {
    if cs != [] {
      StepKeepsOrder(v, cs[0]);
      RunKeepsOrder(Step(v, cs[0]), cs[1..]);
    }
  }

  /** The command records a wake, or answers a list that was asked after this call. */
  ghost predicate Settles(c: ViewCommand, call: CallId, w: View) {
    c.Hear? && (c.kind == WaitAgent ||
                (c.call in w.calls && call in w.calls && w.calls[c.call].rank > w.calls[call].rank))
  }

  /** Some command of the run does. */
  ghost predicate Settled(cs: seq<ViewCommand>, call: CallId, w: View) {
    exists i :: 0 <= i < |cs| && Settles(cs[i], call, w)
  }

  lemma StepSettles(v: View, c: ViewCommand, call: CallId)
    requires Ordered(v) && v.due == Some(call) && Step(v, c).due != v.due
    ensures Settles(c, call, v)
  {
    if c.Hear? && c.kind == ListAgents && c.call in v.calls {
      NewerWakeStaysDue(v, c.call, c.response);
    }
  }

  lemma SettlesLater(c: ViewCommand, call: CallId, v: View, w: View)
    requires Settles(c, call, v) && KeepsAsked(v, w)
    ensures Settles(c, call, w)
  {
  }

  lemma {:induction false} DueUntilSettled(v: View, cs: seq<ViewCommand>, call: CallId)
    requires Ordered(v) && v.due == Some(call) && Steps(v, cs).due != v.due
    ensures Settled(cs, call, Steps(v, cs))
    decreases |cs|
  {
    var m := Step(v, cs[0]);
    StepKeeps(v, cs[0]);
    StepKeepsOrder(v, cs[0]);
    RunKeepsAsked(m, cs[1..]);
    if m.due != v.due {
      StepSettles(v, cs[0], call);
      SettlesLater(cs[0], call, v, m);
      SettlesLater(cs[0], call, m, Steps(v, cs));
    } else {
      DueUntilSettled(m, cs[1..], call);
      SettledInRest(cs, call, Steps(v, cs));
    }
  }

  lemma SettledInRest(cs: seq<ViewCommand>, call: CallId, w: View)
    requires cs != [] && Settled(cs[1..], call, w)
    ensures Settled(cs, call, w)
  {
    var i :| 0 <= i < |cs[1..]| && Settles(cs[1..][i], call, w);
    assert cs[i + 1] == cs[1..][i];
  }

  /** In every run, a wake stays due until another wake is recorded or a list that was asked after it is answered. */
  lemma DueUntilListed(foreign: set<Agent>, elsewhere: set<Handle>, before: seq<ViewCommand>, cs: seq<ViewCommand>,
                       call: CallId)
    ensures var v := Steps(Unseen(foreign, elsewhere), before);
            v.due == Some(call) && Steps(v, cs).due != v.due ==> Settled(cs, call, Steps(v, cs))
  {
    var v := Steps(Unseen(foreign, elsewhere), before);
    RunKeepsOrder(Unseen(foreign, elsewhere), before);
    if v.due == Some(call) && Steps(v, cs).due != v.due {
      DueUntilSettled(v, cs, call);
    }
  }

  // ---------- whose handle ----------

  lemma StepKeepsHandles(v: View, c: ViewCommand)
    requires OneSlotPerHandle(v)
    ensures OneSlotPerHandle(Step(v, c))
  {
  }

  lemma {:induction false} RunKeepsHandles(v: View, cs: seq<ViewCommand>)
    requires OneSlotPerHandle(v)
    ensures OneSlotPerHandle(Steps(v, cs))
    decreases |cs|
  {
    if cs != [] {
      StepKeepsHandles(v, cs[0]);
      RunKeepsHandles(Step(v, cs[0]), cs[1..]);
    }
  }

  /** In every run a native handle answers for one slot of one root. */
  lemma HandlesAreUnique(foreign: set<Agent>, elsewhere: set<Handle>, cs: seq<ViewCommand>)
    ensures OneSlotPerHandle(Steps(Unseen(foreign, elsewhere), cs))
  {
    RunKeepsHandles(Unseen(foreign, elsewhere), cs);
  }
}
