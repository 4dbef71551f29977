/** What the second wire protocol's answers do, status by status, and what a call to observe remembers. */
module NativeStatuses {
  import opened Wrappers
  import Work
  import opened Crew
  import opened CrewCalls
  import opened CrewWaits
  import opened CrewStatuses
  import opened NativeFlow

  // ---------- what is remembered ----------

  /** The slot's row was handed out, and the handle is the slot's own or, without one, the agent of the row. */
  ghost predicate SlotHandle(v: View, slot: nat, h: Handle) {
    && v.crew.contract.Some?
    && var t := Ticket(v.crew.contract.value.plan, slot);
       && t in v.crew.work && v.crew.work[t].stage != Work.Pending
       && if slot in v.targets then v.targets[slot] == h else v.crew.work[t].agent == Some(h)
  }

  /** It is the handle of this slot and of none between it and n. */
  ghost predicate LastSlot(v: View, slot: nat, h: Handle, n: nat) {
    slot < n && SlotHandle(v, slot, h) && forall k | slot < k < n :: !SlotHandle(v, k, h)
  }

  /** What is remembered of a slot: its ticket, with the calls it has now. */
  function SavedNow(v: View, slot: nat): Saved
    requires v.crew.contract.Some?
  {
    var t := Ticket(v.crew.contract.value.plan, slot);
    Saved(t, Epoch(v.crew.dispatches, t))
  }

  /** The snapshot has every handle of the first n slots, and nothing else. */
  ghost predicate RecordsSlots(v: View, snapshot: map<Handle, Saved>, n: nat)
    requires v.crew.contract.Some?
  {
    && (forall k, h | 0 <= k < n && SlotHandle(v, k, h) :: h in snapshot)
    && (forall h | h in snapshot :: exists k :: LastSlot(v, k, h, n) && snapshot[h] == SavedNow(v, k))
  }

  lemma {:induction false} SnapshotRecords(v: View, n: nat)
    requires v.crew.contract.Some?
    ensures RecordsSlots(v, SnapshotBelow(v, n), n)
  {
    if n > 0 {
      SnapshotRecords(v, n - 1);
      var rest, snapshot := SnapshotBelow(v, n - 1), SnapshotBelow(v, n);
      forall h | h in snapshot ensures exists k :: LastSlot(v, k, h, n) && snapshot[h] == SavedNow(v, k) {
        if SlotHandle(v, n - 1, h) {
          assert LastSlot(v, n - 1, h, n) && snapshot[h] == SavedNow(v, n - 1);
        } else {
          var k :| LastSlot(v, k, h, n - 1) && rest[h] == SavedNow(v, k);
          assert LastSlot(v, k, h, n) && snapshot[h] == SavedNow(v, k);
        }
      }
    }
  }

  /** No two handles stand for one ticket. */
  ghost predicate TicketEach(snapshot: map<Handle, Saved>) {
    forall h, o | h in snapshot && o in snapshot && snapshot[h].ticket == snapshot[o].ticket :: h == o
  }

  lemma RecordsTicketEach(v: View, snapshot: map<Handle, Saved>)
    requires v.crew.contract.Some? && RecordsSlots(v, snapshot, SLOTS)
    ensures TicketEach(snapshot)
  {
  }

  /** The call remembers all six slots as they were. */
  ghost predicate SeesAll(v: View, w: View, call: CallId) {
    call in w.calls && v.crew.contract.Some? && RecordsSlots(v, w.calls[call].snapshot, 6)
  }

  /** A call to observe is recorded in an open round under a new number, and remembers all six slots as they are. */
  lemma AskIsRecorded(v: View, call: CallId, kind: Kind, env: Env)
    ensures var w := Pre(v, call, kind, env);
            if v.crew.contract.Some? && env.current && call !in v.calls then
              && call in w.calls && w == v.(calls := v.calls[call := w.calls[call]])
              && w.calls[call] == Call(kind, |v.calls|, v.crew.contract.value.plan, w.calls[call].snapshot, None)
              && RecordsSlots(v, w.calls[call].snapshot, 6) && TicketEach(w.calls[call].snapshot)
            else w == v
  {
    if v.crew.contract.Some? {
      SnapshotRecords(v, SLOTS);
      RecordsTicketEach(v, SnapshotBelow(v, SLOTS));
    }
  }

  // ---------- what is read ----------

  /** Every item has a name, no name twice, and those of this crew have a status that is recognised. */
  ghost predicate Readable(items: seq<Item>, snapshot: map<Handle, Saved>) {
    && (forall i | 0 <= i < |items| :: items[i].name != None)
    && (forall i, j | 0 <= i < |items| && 0 <= j < |items| && items[i].name == items[j].name :: i == j)
    && (forall i | 0 <= i < |items| && items[i].name.value in snapshot :: items[i].status != None)
  }

  lemma ReadableIsWellFormed(items: seq<Item>, snapshot: map<Handle, Saved>)
    ensures Readable(items, snapshot) <==> WellFormed(items, snapshot)
  {
    if WellFormed(items, snapshot) {
      forall i | 0 <= i < |items|
        ensures items[i].name.Some? && (items[i].name.value in snapshot ==> items[i].status.Some?)
        ensures forall j | 0 <= j < i :: items[j].name != items[i].name
      {
        assert ItemOk(items, i, snapshot);
      }
    }
  }

  /** The statuses heard are those listed of this crew's agents. */
  ghost predicate HeardIsListed(items: seq<Item>, snapshot: map<Handle, Saved>, heard: seq<Heard>) {
    && (forall i | 0 <= i < |items| && items[i].name.Some? && items[i].name.value in snapshot &&
                   items[i].status.Some? ::
          Heard(items[i].name.value, items[i].status.value) in heard)
    && (forall h | h in heard :: h.name in snapshot && Item(Some(h.name), Some(h.status)) in items)
    && (forall i, j | 0 <= i < |heard| && 0 <= j < |heard| && heard[i].name == heard[j].name :: i == j)
  }

  lemma {:induction false} OursIsListed(items: seq<Item>, snapshot: map<Handle, Saved>)
    requires WellFormed(items, snapshot)
    ensures HeardIsListed(items, snapshot, Ours(items, snapshot))
    decreases |items|
  {
    if items != [] {
      var last := |items| - 1;
      assert ItemOk(items, last, snapshot);
      assert WellFormed(items[..last], snapshot) by {
        assert forall i | 0 <= i < last :: ItemOk(items, i, snapshot) ==> ItemOk(items[..last], i, snapshot);
      }
      OursIsListed(items[..last], snapshot);
      OneMoreHeard(items[..last], items[last], snapshot, Ours(items[..last], snapshot));
      assert items == items[..last] + [items[last]];
    }
  }

  lemma OneMoreHeard(items: seq<Item>, item: Item, snapshot: map<Handle, Saved>, heard: seq<Heard>)
    requires HeardIsListed(items, snapshot, heard) && item.name.Some?
    requires item.name.value in snapshot ==> item.status.Some?
    requires forall k | 0 <= k < |items| :: items[k].name != item.name
    ensures HeardIsListed(items + [item], snapshot, heard + if item.name.value in snapshot
                                                             then [Heard(item.name.value, item.status.value)] else [])
  {
    forall h | h in heard ensures h.name != item.name.value {
      var k :| 0 <= k < |items| && items[k] == Item(Some(h.name), Some(h.status));
    }
  }

  // ---------- what it moves ----------

  /** The call saw the handle's ticket as it is. */
  ghost predicate SeenNow(v: View, c: Call, h: Handle) {
    && h in c.snapshot && v.crew.contract.Some? && c.snapshot[h].ticket in v.crew.work
    && c.snapshot[h].ticket.plan == v.crew.contract.value.plan
    && c.snapshot[h].epoch == Epoch(v.crew.dispatches, c.snapshot[h].ticket)
  }

  ghost predicate NotedAs(s: State, r: State, call: CallId, saved: Saved, status: Native) {
    && saved.ticket in s.work && saved.ticket in r.observed
    && r.observed[saved.ticket] ==
       Observation(status, s.work[saved.ticket].agent, saved.epoch, saved.ticket.plan, call)
  }

  lemma LearnFollows(s: State, call: CallId, saved: Saved, status: Native)
    requires Current(s, saved)
    ensures var r := Learn(s, call, saved, status);
            Follows(s, r, saved.ticket, status) && NotedAs(s, r, call, saved, status)
  {
    var m := Note(s, call, saved, status);
    LandingMoves(m, saved.ticket, status);
    SameRows(s, m, Learn(s, call, saved, status), saved.ticket, status);
  }

  lemma LearnElsewhere(s: State, call: CallId, saved: Saved, status: Native, t: Ticket)
    requires saved.ticket != t
    ensures var r := Learn(s, call, saved, status);
            Untouched(s, r, t) && |r.dispatches| == |s.dispatches| && KeepsCalls(s.dispatches, r.dispatches)
  {
    LearnTouches(s, call, saved, status, t);
    LearnKeepsCalls(s, call, saved, status);
  }

  lemma {:induction false} NoneListed(s: State, call: CallId, snapshot: map<Handle, Saved>, heard: seq<Heard>,
                                      t: Ticket)
    requires forall h | h in heard :: h.name in snapshot && snapshot[h.name].ticket != t
    ensures Untouched(s, LearnAll(s, call, snapshot, heard), t)
    decreases |heard|
  {
    if heard != [] {
      var m := Learn(s, call, snapshot[heard[0].name], heard[0].status);
      LearnElsewhere(s, call, snapshot[heard[0].name], heard[0].status, t);
      NoneListed(m, call, snapshot, heard[1..], t);
      UntouchedTwice(s, m, LearnAll(s, call, snapshot, heard), t);
    }
  }

  lemma {:induction false} ListedFollows(s: State, call: CallId, snapshot: map<Handle, Saved>, heard: seq<Heard>,
                                         i: nat)
    requires (forall h | h in heard :: h.name in snapshot) && TicketEach(snapshot) && i < |heard|
    requires forall j, k | 0 <= j < |heard| && 0 <= k < |heard| && heard[j].name == heard[k].name :: j == k
    requires Current(s, snapshot[heard[i].name])
    ensures var r, saved := LearnAll(s, call, snapshot, heard), snapshot[heard[i].name];
            Follows(s, r, saved.ticket, heard[i].status) && NotedAs(s, r, call, saved, heard[i].status)
    decreases |heard|
  {
    var saved, first, rest := snapshot[heard[i].name], snapshot[heard[0].name], heard[1..];
    var t := saved.ticket;
    var m := Learn(s, call, first, heard[0].status);
    var r := LearnAll(s, call, snapshot, heard);
    LearnKeepsCalls(s, call, first, heard[0].status);
    if i == 0 {
      LearnFollows(s, call, saved, heard[0].status);
      forall h | h in rest ensures snapshot[h.name].ticket != t {
        var j :| 0 <= j < |rest| && rest[j] == h;
        assert heard[j + 1] == h;
      }
      NoneListed(m, call, snapshot, rest, t);
    } else {
      LearnElsewhere(s, call, first, heard[0].status, t);
      EpochNeverReturns(s.dispatches, m.dispatches, t);
      assert forall j | 0 <= j < |rest| :: rest[j] == heard[j + 1];
      ListedFollows(m, call, snapshot, rest, i - 1);
    }
    FollowsElsewhere(s, m, r, t, heard[i].status);
  }

  /** The answer is taken: of a list that was asked in the round and can be read. */
  ghost predicate IsTaken(v: View, call: CallId, r: Response) {
    && call in v.calls && v.calls[call].kind == ListAgents && v.calls[call].result.None?
    && v.crew.contract.Some? && v.crew.contract.value.plan == v.calls[call].plan
    && !r.error && r.agents.Some? && Readable(r.agents.value, v.calls[call].snapshot)
  }

  lemma TakenLearns(v: View, call: CallId, r: Response)
    requires IsTaken(v, call, r)
    ensures WellFormed(r.agents.value, v.calls[call].snapshot)
    ensures var c := v.calls[call];
            Post(v, call, ListAgents, r).crew ==
            LearnAll(v.crew, call, c.snapshot, Ours(r.agents.value, c.snapshot))
  {
    ReadableIsWellFormed(r.agents.value, v.calls[call].snapshot);
  }

  /** Every status listed of an agent of this crew moves that agent's row as the same status in a wait would, as long as
      the call saw its ticket as it is; and it is noted. */
  lemma ListFollows(v: View, call: CallId, r: Response, h: Handle, status: Native)
    requires IsTaken(v, call, r) && Item(Some(h), Some(status)) in r.agents.value
    requires SeenNow(v, v.calls[call], h) && TicketEach(v.calls[call].snapshot)
    ensures var w, saved := Post(v, call, ListAgents, r), v.calls[call].snapshot[h];
            Follows(v.crew, w.crew, saved.ticket, status) && NotedAs(v.crew, w.crew, call, saved, status)
  {
    var c := v.calls[call];
    TakenLearns(v, call, r);
    var heard := Ours(r.agents.value, c.snapshot);
    OursIsListed(r.agents.value, c.snapshot);
    var k :| 0 <= k < |r.agents.value| && r.agents.value[k] == Item(Some(h), Some(status));
    assert Heard(h, status) in heard;
    var i :| 0 <= i < |heard| && heard[i] == Heard(h, status);
    ListedFollows(v.crew, call, c.snapshot, heard, i);
  }

  /** A ticket of which the list says nothing is left alone. */
  lemma UnlistedStays(v: View, call: CallId, r: Response, t: Ticket)
    requires IsTaken(v, call, r)
    requires forall item | item in r.agents.value && item.name.Some? && item.name.value in v.calls[call].snapshot ::
               v.calls[call].snapshot[item.name.value].ticket != t
    ensures Untouched(v.crew, Post(v, call, ListAgents, r).crew, t)
  {
    var c := v.calls[call];
    TakenLearns(v, call, r);
    OursIsListed(r.agents.value, c.snapshot);
    NoneListed(v.crew, call, c.snapshot, Ours(r.agents.value, c.snapshot), t);
  }

  /** Whatever happened since the call was recorded: if the ticket got no other call and its round goes on, the status
      counts. */
  lemma LateListFollows(v: View, call: CallId, env: Env, middle: seq<ViewCommand>, r: Response, h: Handle,
                        status: Native)
    requires v.crew.contract.Some? && env.current && call !in v.calls
    requires var m := Steps(Pre(v, call, ListAgents, env), middle);
             IsTaken(m, call, r) && SeenNow(m, m.calls[call], h) && Item(Some(h), Some(status)) in r.agents.value
    ensures var m := Steps(Pre(v, call, ListAgents, env), middle);
            var w, saved := Post(m, call, ListAgents, r), m.calls[call].snapshot[h];
            Follows(m.crew, w.crew, saved.ticket, status) && NotedAs(m.crew, w.crew, call, saved, status)
  {
    AskIsRecorded(v, call, ListAgents, env);
    RunKeepsAsked(Pre(v, call, ListAgents, env), middle);
    ListFollows(Steps(Pre(v, call, ListAgents, env), middle), call, r, h, status);
  }

  // ---------- what is due ----------

  /** What was due was asked for after this call. */
  ghost predicate DueIsNewer(v: View, call: CallId) {
    match v.due
    case None => false
    case Some(wake) => wake in v.calls && call in v.calls && v.calls[wake].rank > v.calls[call].rank
  }

  /** A list settles what is due exactly if every ticket it saw has only the calls it saw, and no newer wake is due. */
  lemma ListSettles(v: View, call: CallId, r: Response)
    requires IsTaken(v, call, r)
    ensures var w, c := Post(v, call, ListAgents, r), v.calls[call];
            w == v.(crew := w.crew, due := w.due, calls := v.calls[call := c.(result := Some(r))]) &&
            w.due == if (forall h | h in c.snapshot :: Epoch(v.crew.dispatches, c.snapshot[h].ticket) ==
                                                       c.snapshot[h].epoch) && !DueIsNewer(v, call)
                     then None else v.due
  {
    var c := v.calls[call];
    TakenLearns(v, call, r);
    var heard := Ours(r.agents.value, c.snapshot);
    LearnAllKeepsCalls(v.crew, call, c.snapshot, heard);
    var learned := LearnAll(v.crew, call, c.snapshot, heard);
    forall t: Ticket ensures Epoch(learned.dispatches, t) == Epoch(v.crew.dispatches, t) {
      EpochNeverReturns(v.crew.dispatches, learned.dispatches, t);
    }
  }

  /** A wake of the round makes a list due; every other answer that is not taken is only recorded with its call. */
  lemma WakeMakesDue(v: View, call: CallId, kind: Kind, r: Response)
    requires call in v.calls && v.calls[call].kind == kind && v.calls[call].result.None? && !IsTaken(v, call, r)
    ensures var heeded := kind == WaitAgent && r.wake && !r.error && v.crew.contract.Some? &&
                          v.crew.contract.value.plan == v.calls[call].plan;
            Post(v, call, kind, r) ==
            v.(calls := v.calls[call := v.calls[call].(result := Some(r))], due := if heeded then Some(call) else v.due)
  {
    if r.agents.Some? {
      ReadableIsWellFormed(r.agents.value, v.calls[call].snapshot);
    }
  }

  /** An answer of another kind, to a call that was not recorded or was answered before changes nothing. */
  lemma AnswerIsStray(v: View, call: CallId, kind: Kind, r: Response)
    requires call in v.calls ==> v.calls[call].kind != kind || v.calls[call].result.Some?
    ensures Post(v, call, kind, r) == v
  {
  }

  // ---------- handles ----------

  /** A slot takes a handle exactly if no root and no slot has it; so does another root. */
  lemma HandleIsBound(v: View, slot: nat, h: Handle)
    ensures BindTarget(v, slot, h) ==
            if h in v.elsewhere || h in v.targets.Values then v else v.(targets := v.targets[slot := h])
    ensures BindTargetElsewhere(v, h) ==
            if h in v.targets.Values then v else v.(elsewhere := v.elsewhere + {h})
  {
  }

  // ---------- in every run ----------

  /** Every call on record has a ticket of its own for every handle. */
  ghost predicate CallsApart(v: View) {
    forall c | c in v.calls :: TicketEach(v.calls[c].snapshot)
  }

  lemma AskKeepsApart(v: View, call: CallId, kind: Kind, env: Env)
    requires CallsApart(v)
    ensures CallsApart(Pre(v, call, kind, env))
  {
    AskIsRecorded(v, call, kind, env);
  }

  lemma HearKeepsApart(v: View, call: CallId, kind: Kind, r: Response)
    requires CallsApart(v)
    ensures CallsApart(Post(v, call, kind, r))
  {
    PostMarks(v, call, kind, r);
  }

  lemma SameCalls(v: View, w: View)
    requires CallsApart(v) && w.calls == v.calls
    ensures CallsApart(w)
  {
  }

  lemma {:induction false} StepsKeepApart(v: View, cs: seq<ViewCommand>)
    requires CallsApart(v)
    ensures CallsApart(Steps(v, cs))
    decreases |cs|
  {
    if cs != [] {
      match cs[0] {
        case OnCrew(command) => SameCalls(v, Step(v, cs[0]));
        case Ask(call, kind, env) => AskKeepsApart(v, call, kind, env);
        case Hear(call, kind, r) => HearKeepsApart(v, call, kind, r);
        case Name(slot, h) => SameCalls(v, BindTarget(v, slot, h));
        case NameElsewhere(h) => SameCalls(v, BindTargetElsewhere(v, h));
      }
      StepsKeepApart(Step(v, cs[0]), cs[1..]);
    }
  }

  /** A list that is taken moves the row of every agent it names by that agent's status, as long as the call saw its
      ticket as it is. */
  ghost predicate EachListed(v: View, w: View, call: CallId, r: Response) {
    IsTaken(v, call, r) ==>
      forall item | item in r.agents.value && item.name.Some? && SeenNow(v, v.calls[call], item.name.value) ::
        ItemIsTaken(v.crew, w.crew, call, v.calls[call], item)
  }

  ghost predicate ItemIsTaken(s: State, r: State, call: CallId, c: Call, item: Item) {
    item.name.Some? && item.status.Some? && item.name.value in c.snapshot ==>
      var saved := c.snapshot[item.name.value];
      Follows(s, r, saved.ticket, item.status.value) && NotedAs(s, r, call, saved, item.status.value)
  }

  lemma ListIsTaken(v: View, call: CallId, r: Response)
    requires CallsApart(v)
    ensures EachListed(v, Post(v, call, ListAgents, r), call, r)
  {
    if IsTaken(v, call, r) {
      forall item | item in r.agents.value && item.name.Some? && SeenNow(v, v.calls[call], item.name.value)
        ensures ItemIsTaken(v.crew, Post(v, call, ListAgents, r).crew, call, v.calls[call], item)
      {
        if item.status.Some? {
          assert item == Item(Some(item.name.value), Some(item.status.value));
          ListFollows(v, call, r, item.name.value, item.status.value);
        }
      }
    }
  }

  lemma LeadsTakes(foreign: set<Agent>, elsewhere: set<Handle>, cs: seq<ViewCommand>, v: View, call: CallId,
                   kind: Kind, r: Response)
    requires LeadsView(Unseen(foreign, elsewhere), cs, v)
    ensures kind == ListAgents ==> EachListed(v, Post(v, call, kind, r), call, r)
  {
    LeadsViewIsRun(Unseen(foreign, elsewhere), cs, v);
    StepsKeepApart(Unseen(foreign, elsewhere), cs);
    ListIsTaken(v, call, r);
  }
}
