/** Observations of the fixed crew: a late wait result moves only rows whose dispatches it saw, and replays move
    nothing. */
module CrewWaits {
  import opened Wrappers
  import opened Work
  import opened Crew
  import opened CrewInv
  import opened CrewCalls

  /** The epoch of a ticket never returns to an earlier value: it is the same exactly while no dispatch was added. */
  lemma {:induction false} EpochNeverReturns(ds: seq<Dispatch>, es: seq<Dispatch>, t: Ticket)
    requires KeepsCalls(ds, es)
    ensures Epoch(ds, t) <= Epoch(es, t)
    ensures Epoch(es, t) == Epoch(ds, t) <==> (forall i | |ds| <= i < |es| :: es[i].payload.ticket != t)
    decreases |es|
  {
    if |es| > |ds| {
      EpochNeverReturns(ds, es[..|es| - 1], t);
      assert forall i | 0 <= i < |es| - 1 :: es[..|es| - 1][i] == es[i];
    } else if |es| > 0 {
      EpochNeverReturns(ds[..|ds| - 1], es[..|es| - 1], t);
    }
  }

  /** Nothing recorded about a ticket differs. */
  ghost predicate Untouched(s: State, r: State, t: Ticket) {
    && (t in s.work <==> t in r.work) && (t in s.work ==> r.work[t] == s.work[t])
    && (t in s.observed <==> t in r.observed) && (t in s.observed ==> r.observed[t] == s.observed[t])
    && |r.dispatches| == |s.dispatches|
    && (forall i | 0 <= i < |s.dispatches| && s.dispatches[i].payload.ticket == t :: r.dispatches[i] == s.dispatches[i])
  }

  /** The wait looked at this ticket when its dispatches were the present ones. */
  ghost predicate Saw(s: State, w: Wait, t: Ticket) {
    t.plan == w.plan && exists a :: a in w.snapshot && w.snapshot[a] == Saved(t, Epoch(s.dispatches, t))
  }

  lemma ForeignStatusIsIgnored(s: State, call: CallId, w: Wait, a: Agent, status: Native)
    requires a in w.snapshot && !Saw(s, w, w.snapshot[a].ticket)
    ensures Observe(s, call, w, a, status) == s
  {
    assert w.snapshot[a] == Saved(w.snapshot[a].ticket, w.snapshot[a].epoch);
  }

  lemma NotedTouches(s: State, call: CallId, w: Wait, a: Agent, status: Native, t: Ticket)
    requires a in w.snapshot && w.snapshot[a].ticket != t
    ensures Untouched(s, Noted(s, call, w, a, status), t)
  {
  }

  lemma UntouchedTwice(s: State, m: State, r: State, t: Ticket)
    requires Untouched(s, m, t) && Untouched(m, r, t)
    ensures Untouched(s, r, t)
  {
  }

  lemma LandTouches(s: State, u: Ticket, stage: Stage, t: Ticket)
    requires u in s.work && u != t
    ensures Untouched(s, Land(s, u, stage), t)
  {
  }

  lemma OtherTicketsUntouched(s: State, call: CallId, w: Wait, a: Agent, status: Native, t: Ticket)
    requires a in w.snapshot && w.snapshot[a].ticket != t
    ensures Untouched(s, Observe(s, call, w, a, status), t)
  {
    if Counts(s, w, a) {
      var u := w.snapshot[a].ticket;
      var noted := Noted(s, call, w, a, status);
      NotedTouches(s, call, w, a, status, t);
      if Landing(status, s.work[u].stage).Some? {
        var stage := Landing(status, s.work[u].stage).value;
        LandTouches(noted, u, stage, t);
        UntouchedTwice(s, noted, Land(noted, u, stage), t);
      }
    }
  }

  lemma ObserveTouches(s: State, call: CallId, w: Wait, a: Agent, status: Native, t: Ticket)
    requires a in w.snapshot && !Saw(s, w, t)
    ensures Untouched(s, Observe(s, call, w, a, status), t)
  {
    if w.snapshot[a].ticket == t {
      ForeignStatusIsIgnored(s, call, w, a, status);
    } else {
      OtherTicketsUntouched(s, call, w, a, status, t);
    }
  }

  lemma {:induction false} ObserveAllTouches(s: State, call: CallId, w: Wait, lone: bool,
                                            statuses: seq<(string, Option<Native>)>, t: Ticket)
    requires !Saw(s, w, t)
    ensures Untouched(s, ObserveAll(s, call, w, lone, statuses), t)
    decreases |statuses|
  {
    if statuses != [] {
      var m := ObserveOne(s, call, w, lone, statuses[0].0, statuses[0].1);
      var a := Resolve(w, lone, statuses[0].0);
      if a.Some? && a.value in w.snapshot && statuses[0].1.Some? {
        ObserveTouches(s, call, w, a.value, statuses[0].1.value, t);
      }
      ObserveOneKeepsCalls(s, call, w, lone, statuses[0].0, statuses[0].1);
      EpochNeverReturns(s.dispatches, m.dispatches, t);
      ObserveAllTouches(m, call, w, lone, statuses[1..], t);
    }
  }

  /** A wait that was issued is remembered as it was issued. */
  lemma IssuedWait(s: State, call: CallId, targets: seq<Agent>, env: Env, middle: seq<Command>)
    requires Inv(s) && PreWait(s, call, targets, env) != s
    ensures var m := Run(PreWait(s, call, targets, env), middle);
            call in m.waits && m.waits[call].plan == s.contract.value.plan &&
            forall a | a in m.waits[call].snapshot ::
              var saved := m.waits[call].snapshot[a];
              saved.ticket.plan == s.contract.value.plan && saved.epoch == Epoch(s.dispatches, saved.ticket)
  {
    PreWaitKeeps(s, call, targets, env);
    RunIsLater(PreWait(s, call, targets, env), middle);
  }

  /** Late answers never touch newer work: if a ticket differs after a wait result, the plan is the one the wait was
      issued under and no dispatch was added to the ticket since. */
  lemma LateResultsAreHarmless(foreign: set<Agent>, before: seq<Command>, call: CallId, targets: seq<Agent>, env: Env,
                               middle: seq<Command>, result: WaitResult, t: Ticket)
    ensures var s := Run(Initial(foreign), before);
            var p := PreWait(s, call, targets, env);
            var m := Run(p, middle);
            p != s && !Untouched(m, PostWait(m, call, result), t) ==>
              m.contract.Some? && m.contract.value.plan == s.contract.value.plan == t.plan &&
              |s.dispatches| <= |m.dispatches| &&
              forall i | |s.dispatches| <= i < |m.dispatches| :: m.dispatches[i].payload.ticket != t
  {
    var s := Run(Initial(foreign), before);
    ReachableCrew(foreign, before);
    var m := Run(PreWait(s, call, targets, env), middle);
    if PreWait(s, call, targets, env) != s && !Untouched(m, PostWait(m, call, result), t) {
      LateResult(s, call, targets, env, middle, result, t);
    }
  }

  lemma LateResult(s: State, call: CallId, targets: seq<Agent>, env: Env, middle: seq<Command>, result: WaitResult,
                   t: Ticket)
    requires Inv(s) && PreWait(s, call, targets, env) != s
    requires var m := Run(PreWait(s, call, targets, env), middle); !Untouched(m, PostWait(m, call, result), t)
    ensures var m := Run(PreWait(s, call, targets, env), middle);
            m.contract.Some? && m.contract.value.plan == s.contract.value.plan == t.plan &&
            |s.dispatches| <= |m.dispatches| &&
            forall i | |s.dispatches| <= i < |m.dispatches| :: m.dispatches[i].payload.ticket != t
  {
    var p := PreWait(s, call, targets, env);
    var m := Run(p, middle);
    IssuedWait(s, call, targets, env, middle);
    PreWaitKeeps(s, call, targets, env);
    RunIsLater(p, middle);
    ResultTouches(m, call, result, t);
    EpochNeverReturns(s.dispatches, m.dispatches, t);
  }

  /** A result touches only tickets its wait saw as they are. */
  lemma ResultTouches(s: State, call: CallId, result: WaitResult, t: Ticket)
    requires !Untouched(s, PostWait(s, call, result), t)
    ensures call in s.waits && s.contract.Some? && s.contract.value.plan == s.waits[call].plan &&
            Saw(s, s.waits[call], t)
  {
    if call in s.waits && !Saw(s, s.waits[call], t) && result.statuses.Some? {
      ObserveAllTouches(s, call, s.waits[call], |result.statuses.value| == 1, result.statuses.value, t);
    }
  }

  /** The result of a wait is taken once: whatever happens in between, a second result changes nothing. */
  lemma ReplayChangesNothing(s: State, call: CallId, first: WaitResult, middle: seq<Command>, second: WaitResult)
    requires Inv(s)
    ensures var m := Run(PostWait(s, call, first), middle);
            call in s.waits ==> PostWait(m, call, second) == m
  {
    PostWaitKeeps(s, call, first);
    RunIsLater(PostWait(s, call, first), middle);
  }
}
