/** The NativeFlow object: its observation ledger beside the crew's tables, and the commands that update both in
    place. */
module NativeTables {
  import opened Wrappers
  import Work
  import opened Crew
  import opened CrewTables
  import opened NativeFlow
  import opened NativeStatuses
  import Traces

  class Observer {
    const crew: Tables
    var targets: map<nat, Handle>
    var calls: map<CallId, Call>
    var due: Option<CallId>
    var elsewhere: set<Handle>
    ghost const foreign: set<Agent>
    ghost const others: set<Handle>
    ghost var history: seq<ViewCommand>

    function Abs(): View
      reads this, crew
    {
      View(crew.Abs(), targets, calls, due, elsewhere)
    }

    /** Crew and observations are what the commands issued so far to either of them make of an empty crew. */
    ghost predicate Valid()
      reads this, crew
    {
      LeadsView(Unseen(foreign, others), history, Abs())
    }

    /** The run went on by one command. */
    ghost predicate Did(before: seq<ViewCommand>, c: ViewCommand)
      reads this, crew
    {
      Valid() && history == before + [c]
    }

    constructor (crew: Tables, bound: set<Agent>, taken: set<Handle>)
      requires crew.Abs() == Initial(bound)
      ensures Valid() && this.crew == crew && Abs() == Unseen(bound, taken) && history == []
    {
      this.crew := crew;
      targets, calls, due, elsewhere := map[], map[], None, taken;
      foreign, others, history := bound, taken, [];
      new;
      Traces.LeadsNowhere(Step, Abs(), Abs());
    }

    ghost method Record(was: View, c: ViewCommand)
      requires LeadsView(Unseen(foreign, others), history, was) && Abs() == Step(was, c)
      modifies this`history
      ensures Did(old(history), c) && Abs() == old(Abs())
    {
      Traces.LeadsOn(Step, Unseen(foreign, others), history, was, c);
      history := history + [c];
    }

    // ---------- handles ----------

    /** crew.post_dispatch: a handle some slot of some root has is refused. */
    method Bind(slot: nat, h: Handle) returns (bound: bool)
      requires Valid()
      modifies this
      ensures Did(old(history), Name(slot, h)) && Abs() == BindTarget(old(Abs()), slot, h)
      ensures if bound then slot in targets && targets[slot] == h else Abs() == old(Abs())
      ensures Kept(Abs())
    {
      ghost var was := Abs();
      bound := Grasp(slot, h);
      Record(was, Name(slot, h));
      LeadsIsKept(foreign, others, history, Abs());
    }

    method Grasp(slot: nat, h: Handle) returns (bound: bool)
      modifies this`targets
      ensures Abs() == BindTarget(old(Abs()), slot, h)
      ensures if bound then slot in targets && targets[slot] == h else Abs() == old(Abs())
    {
      bound := h !in elsewhere && !exists k :: k in targets && targets[k] == h;
      if bound {
        targets := targets[slot := h];
      }
    }

    method Yield(h: Handle)
      modifies this`elsewhere
      ensures Abs() == BindTargetElsewhere(old(Abs()), h)
    {
      if !exists k :: k in targets && targets[k] == h {
        elsewhere := elsewhere + {h};
      }
    }

    // ---------- observations ----------

    /** NativeFlow.pre: the call is recorded with the present dispatches of every handle of the round. */
    method Pre(call: CallId, kind: Kind, env: Env) returns (recorded: bool)
      requires Valid()
      modifies this
      ensures Did(old(history), Ask(call, kind, env)) && Abs() == NativeFlow.Pre(old(Abs()), call, kind, env)
      ensures if recorded then SeesPresent(Abs(), call) && SeesAll(old(Abs()), Abs(), call) else Abs() == old(Abs())
    {
      ghost var was := Abs();
      recorded := Note(call, kind, env);
      if recorded {
        AskSeesPresent(was, call, kind, env);
        AskIsRecorded(was, call, kind, env);
      }
      Record(was, Ask(call, kind, env));
    }

    /** Record what every bound agent of the round was last asked to do. */
    method Note(call: CallId, kind: Kind, env: Env) returns (recorded: bool)
      modifies this`calls
      ensures Abs() == NativeFlow.Pre(old(Abs()), call, kind, env)
      ensures if recorded then call in calls && call !in old(calls) else Abs() == old(Abs())
    {
      recorded := crew.contract.Some? && env.current && call !in calls;
      if recorded {
        var snapshot: map<Handle, Saved> := map[];
        for slot := 0 to SLOTS
          invariant snapshot == SnapshotBelow(Abs(), slot)
        {
          var t := Ticket(crew.contract.value.plan, slot);
          if t in crew.work && crew.work[t].stage != Work.Pending {
            var handle := if slot in targets then Some(targets[slot]) else crew.work[t].agent;
            if handle.Some? {
              snapshot := snapshot[handle.value := Saved(t, Epoch(crew.dispatches, t))];
            }
          }
        }
        calls := calls[call := Call(kind, |calls|, crew.contract.value.plan, snapshot, None)];
      }
    }

    /** NativeFlow.post: the answer of a wait or list call is taken once; each status of a list counts for the ticket
        the call saw as it is, and no other ticket moves. */
    method Post(call: CallId, kind: Kind, r: Response)
      requires Valid()
      modifies this, crew`work, crew`observed, crew`dispatches
      ensures Did(old(history), Hear(call, kind, r)) && Abs() == NativeFlow.Post(old(Abs()), call, kind, r)
      ensures Heeded(old(Abs()), Abs(), call)
      ensures kind == ListAgents ==> EachListed(old(Abs()), Abs(), call, r)
    {
      ghost var was := Abs();
      Take(call, kind, r);
      LeadsTakes(foreign, others, history, was, call, kind, r);
      HearIsHeeded(was, call, kind, r);
      Record(was, Hear(call, kind, r));
    }

    method Take(call: CallId, kind: Kind, r: Response)
      modifies this`calls, this`due, crew`work, crew`observed, crew`dispatches
      ensures Abs() == NativeFlow.Post(old(Abs()), call, kind, r)
    {
      if call in calls && calls[call].kind == kind && calls[call].result.None? {
        var c := calls[call];
        if crew.contract.Some? && crew.contract.value.plan == c.plan && !r.error {
          if kind == WaitAgent {
            due := if r.wake then Some(call) else due;
          } else if r.agents.Some? {
            TakeList(call, c, r.agents.value);
          }
        }
        calls := calls[call := c.(result := Some(r))];
      }
    }

    /** Read the whole list first, then let each status count. */
    method TakeList(call: CallId, c: Call, items: seq<Item>)
      modifies this`due, crew`work, crew`observed, crew`dispatches
      ensures !WellFormed(items, c.snapshot) ==> Abs() == old(Abs())
      ensures WellFormed(items, c.snapshot) ==>
                var s := LearnAll(old(crew.Abs()), call, c.snapshot, Ours(items, c.snapshot));
                Abs() == old(Abs()).(crew := s, due :=
                  if AllCurrentEpochs(s, c.snapshot) && !NewerWake(old(Abs()), c.rank) then None else old(due))
    {
      var valid, heard := Read(items, c.snapshot);
      if valid {
        for i := 0 to |heard|
          invariant LearnAll(crew.Abs(), call, c.snapshot, heard[i..]) ==
                    LearnAll(old(crew.Abs()), call, c.snapshot, heard)
          invariant due == old(due) && calls == old(calls) && targets == old(targets)
        {
          assert heard[i..][0] == heard[i] && heard[i..][1..] == heard[i + 1..];
          LearnStatus(call, c.snapshot[heard[i].name], heard[i].status);
        }
        assert heard[|heard|..] == [];
        if AllCurrentEpochs(crew.Abs(), c.snapshot) && !NewerWake(Abs(), c.rank) {
          due := None;
        }
      }
    }

    method LearnStatus(call: CallId, saved: Saved, status: Native)
      modifies crew`work, crew`observed, crew`dispatches
      ensures crew.Abs() == Learn(old(crew.Abs()), call, saved, status)
    {
      var t := saved.ticket;
      if crew.contract.None? || t !in crew.work || t.plan != crew.contract.value.plan ||
         Epoch(crew.dispatches, t) != saved.epoch {
        return;
      }
      crew.observed := crew.observed[t := Observation(status, crew.work[t].agent, saved.epoch, t.plan, call)];
      var landing := Landing(status, crew.work[t].stage);
      if landing.Some? {
        crew.LandRow(t, landing.value);
      }
    }

    // ---------- commands ----------

    method Carry(c: ViewCommand)
      modifies this`targets, this`calls, this`due, this`elsewhere, crew
      ensures Abs() == Step(old(Abs()), c)
    {
      var taken: bool;
      match c
      case OnCrew(command) => crew.Carry(command);
      case Ask(call, kind, env) => taken := Note(call, kind, env);
      case Hear(call, kind, r) => Take(call, kind, r);
      case Name(slot, h) => taken := Grasp(slot, h);
      case NameElsewhere(h) => Yield(h);
    }

    /** A hook or command line reaches the crew or its observer: whatever came before, what is promised of a run holds
        afterwards. */
    method Handle(c: ViewCommand)
      requires Valid()
      modifies this, crew
      ensures Did(old(history), c) && Abs() == Step(old(Abs()), c) && Kept(Abs())
    {
      ghost var was := Abs();
      Carry(c);
      Record(was, c);
      LeadsIsKept(foreign, others, history, Abs());
    }
  }
}
