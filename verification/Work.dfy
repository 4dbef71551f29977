/** Units of work shared by the dynamic team and the fixed crew. */
module Work {
  import opened Paths

  datatype Kind = Investigate | Implement | Verify

  datatype Lenses = PlanLenses | ReviewLenses

  /** What a task says about itself: one of the six built-in lenses of a round, or texts of its author; words are the
      case-folded words that the regular expression finds in its description. */
  datatype Brief =
    | Lens(of: Lenses, slot: nat)
    | Given(description: string, words: seq<string>, doneWhen: seq<string>, why: string)

  datatype Task = Task(id: string, kind: Kind, paths: seq<Path>, dependsOn: seq<string>, brief: Brief)

  datatype Stage = Pending | Reserved | Running | Returned | Accepted | Failed | Abandoned

  /** Two writers whose declared scopes touch. */
  predicate Clash(t: Task, u: Task) {
    t.kind == Implement && u.kind == Implement &&
    exists i, j :: 0 <= i < |t.paths| && 0 <= j < |u.paths| && Overlaps(t.paths[i], u.paths[j])
  }

  lemma ClashSymmetric(t: Task, u: Task)
    ensures Clash(t, u) == Clash(u, t)
  {
    forall t: Task, u: Task | Clash(t, u) ensures Clash(u, t) {
      var i, j :| 0 <= i < |t.paths| && 0 <= j < |u.paths| && Overlaps(t.paths[i], u.paths[j]);
      OverlapsSymmetric(t.paths[i], u.paths[j]);
    }
  }

  /** Stages in which a writer owns its paths. */
  predicate Occupies(s: Stage) {
    s == Reserved || s == Running || s == Returned
  }

  predicate Active(s: Stage) {
    s == Reserved || s == Running
  }

  /** The outcome a worker hands back. */
  datatype Status = Analysis | Tested | Partial | Blocked | Unverified
}
