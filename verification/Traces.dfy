/** Runs as sequences of states: what it means that a list of commands leads from one state to another. */
module Traces {
  /** The states between the commands of a run. */
  ghost predicate Links<S, C>(step: (S, C) -> S, trace: seq<S>, cs: seq<C>) {
    |trace| == |cs| + 1 && forall i {:trigger cs[i]} | 0 <= i < |cs| :: trace[i + 1] == step(trace[i], cs[i])
  }

  ghost predicate Via<S, C>(step: (S, C) -> S, trace: seq<S>, s: S, cs: seq<C>, r: S) {
    Links(step, trace, cs) && trace[0] == s && trace[|cs|] == r
  }

  /** The commands lead from one state to the other. */
  ghost predicate Leads<S(!new), C>(step: (S, C) -> S, s: S, cs: seq<C>, r: S) {
    exists trace: seq<S> :: Via(step, trace, s, cs, r)
  }

  lemma LeadsNowhere<S(!new), C>(step: (S, C) -> S, s: S, r: S)
    ensures Leads(step, s, [], r) <==> s == r
  {
    assert Via(step, [s], s, [], s);
  }

  lemma LeadsOn<S(!new), C>(step: (S, C) -> S, s: S, cs: seq<C>, m: S, c: C)
    requires Leads(step, s, cs, m)
    ensures Leads(step, s, cs + [c], step(m, c))
  {
    var trace: seq<S> :| Via(step, trace, s, cs, m);
    var longer := trace + [step(m, c)];
    forall i | 0 <= i < |cs| + 1 ensures longer[i + 1] == step(longer[i], (cs + [c])[i]) {
      if i < |cs| {
        assert (cs + [c])[i] == cs[i];
      }
    }
    assert Via(step, longer, s, cs + [c], step(m, c));
  }

  lemma LeadsFrom<S(!new), C>(step: (S, C) -> S, s: S, cs: seq<C>, r: S)
    requires cs != []
    ensures Leads(step, s, cs, r) <==> Leads(step, step(s, cs[0]), cs[1..], r)
  {
    if Leads(step, s, cs, r) {
      var trace: seq<S> :| Via(step, trace, s, cs, r);
      TraceRest(step, trace, s, cs, r);
    }
    if Leads(step, step(s, cs[0]), cs[1..], r) {
      var trace: seq<S> :| Via(step, trace, step(s, cs[0]), cs[1..], r);
      TraceMore(step, trace, s, cs, r);
    }
  }

  lemma TraceRest<S, C>(step: (S, C) -> S, trace: seq<S>, s: S, cs: seq<C>, r: S)
    requires cs != [] && Via(step, trace, s, cs, r)
    ensures Via(step, trace[1..], step(s, cs[0]), cs[1..], r)
  {
    forall i | 0 <= i < |cs| - 1 ensures trace[1..][i + 1] == step(trace[1..][i], cs[1..][i]) {
      assert cs[1..][i] == cs[i + 1];
    }
  }

  lemma TraceMore<S, C>(step: (S, C) -> S, trace: seq<S>, s: S, cs: seq<C>, r: S)
    requires cs != [] && Via(step, trace, step(s, cs[0]), cs[1..], r)
    ensures Via(step, [s] + trace, s, cs, r)
  {
    var longer := [s] + trace;
    forall i | 0 <= i < |cs| ensures longer[i + 1] == step(longer[i], cs[i]) {
      if i > 0 {
        assert cs[1..][i - 1] == cs[i];
      }
    }
  }
}
