/** The reservation scheduler of team.py. */
module Team {
  import opened Wrappers
  import opened Work
  import Paths

  const MAX_PARALLEL := 6
  const MAX_LAUNCHES := 8

  datatype Handback = Handback(status: Status, integrated: bool)

  datatype Row = Row(task: Task, stage: Stage, ticket: Option<nat>, launched: nat, result: Option<Handback>)

  datatype Limits = Limits(generation: string, parallel: nat, launch: nat)

  /** What team.plan was asked for, and is asked again when it is repeated. */
  datatype Definition = Definition(goal: string, limits: Limits, tasks: seq<Task>)

  function ActiveCount(rows: seq<Row>): nat {
    if rows == [] then 0 else (if Active(rows[0].stage) then 1 else 0) + ActiveCount(rows[1..])
  }

  /** No two writers that own their paths have touching scopes. */
  ghost predicate Exclusive(rows: seq<Row>) {
    forall i, j | 0 <= i < j < |rows| && Occupies(rows[i].stage) && Occupies(rows[j].stage) ::
      !Clash(rows[i].task, rows[j].task)
  }

  predicate DependenciesMet(rows: seq<Row>, t: Task) {
    forall d | d in t.dependsOn :: exists i :: 0 <= i < |rows| && rows[i].stage == Accepted && rows[i].task.id == d
  }

  predicate Startable(rows: seq<Row>, i: nat)
    requires i < |rows|
  {
    rows[i].stage == Pending && DependenciesMet(rows, rows[i].task)
  }

  /** A writer that owns paths the task would touch. */
  predicate Contended(rows: seq<Row>, t: Task) {
    exists i :: 0 <= i < |rows| && Occupies(rows[i].stage) && Clash(t, rows[i].task)
  }

  lemma {:induction false} ActiveSplit(a: seq<Row>, b: seq<Row>)
    ensures ActiveCount(a + b) == ActiveCount(a) + ActiveCount(b)
  {
    if a == [] {
      assert a + b == b;
    } else {
      ActiveSplit(a[1..], b);
      assert (a + b)[1..] == a[1..] + b;
    }
  }

  lemma ActiveUpdate(rows: seq<Row>, i: nat, r: Row)
    requires i < |rows|
    ensures ActiveCount(rows[i := r]) == ActiveCount(rows)
              - (if Active(rows[i].stage) then 1 else 0) + (if Active(r.stage) then 1 else 0)
  {
    assert rows == rows[..i] + ([rows[i]] + rows[i + 1..]);
    assert rows[i := r] == rows[..i] + ([r] + rows[i + 1..]);
    ActiveSplit(rows[..i], [rows[i]] + rows[i + 1..]);
    ActiveSplit(rows[..i], [r] + rows[i + 1..]);
  }

  /** Reserving row i under a new ticket. */
  function ReserveRow(rows: seq<Row>, i: nat, ticket: nat): seq<Row>
    requires i < |rows|
  {
    rows[i := rows[i].(stage := Reserved, ticket := Some(ticket), launched := rows[i].launched + 1)]
  }

  lemma ReserveKeepsExclusive(rows: seq<Row>, i: nat, ticket: nat)
    requires Exclusive(rows) && i < |rows| && rows[i].stage == Pending
    requires rows[i].task.kind == Implement ==> !Contended(rows, rows[i].task)
    ensures Exclusive(ReserveRow(rows, i, ticket))
  {
    forall j | 0 <= j < |rows| && j != i && Occupies(rows[j].stage)
      ensures !Clash(rows[i].task, rows[j].task) && !Clash(rows[j].task, rows[i].task)
    {
      ClashSymmetric(rows[i].task, rows[j].task);
    }
  }

  /** What one call of reserve may do to the rows of a plan. */
  ghost predicate Reservation(before: seq<Row>, after: seq<Row>, chosen: seq<nat>, firstTicket: nat) {
    && |after| == |before|
    && (forall k | 0 <= k < |chosen| :: chosen[k] < |before| && Startable(before, chosen[k]))
    && (forall k, l | 0 <= k < l < |chosen| :: chosen[k] < chosen[l])
    && (forall k | 0 <= k < |chosen| :: after[chosen[k]] ==
          before[chosen[k]].(stage := Reserved, ticket := Some(firstTicket + k),
                             launched := before[chosen[k]].launched + 1))
    && (forall i | 0 <= i < |before| && i !in chosen :: after[i] == before[i])
  }

  /** The first i rows have been considered. */
  ghost predicate Scan(before: seq<Row>, rows: seq<Row>, chosen: seq<nat>, firstTicket: nat, i: nat) {
    && i <= |before|
    && Reservation(before, rows, chosen, firstTicket)
    && (forall k | 0 <= k < |chosen| :: chosen[k] < i)
    && Exclusive(rows)
    && TicketsBelow(rows, firstTicket + |chosen|)
  }

  ghost predicate TicketsBelow(rows: seq<Row>, bound: nat) {
    forall i | 0 <= i < |rows| && rows[i].ticket.Some? :: rows[i].ticket.value < bound
  }

  /** A row that could start and is still pending would be a second writer. */
  ghost predicate Restrained(before: seq<Row>, rows: seq<Row>, k: nat)
    requires k < |rows|
  {
    rows[k].stage == Pending && DependenciesMet(before, rows[k].task) ==>
      rows[k].task.kind == Implement && Contended(rows, rows[k].task)
  }

  /** Among the first i rows, what could start and is still pending lacks a slot or would be a second writer. */
  ghost predicate HeldBack(before: seq<Row>, rows: seq<Row>, slots: nat, i: nat)
    requires i <= |rows|
  {
    slots == 0 || forall k | 0 <= k < i :: Restrained(before, rows, k)
  }

  lemma ScanStep(before: seq<Row>, rows: seq<Row>, chosen: seq<nat>, firstTicket: nat, i: nat)
    requires Scan(before, rows, chosen, firstTicket, i) && i < |before| && Startable(before, i)
    requires before[i].task.kind == Implement ==> !Contended(rows, before[i].task)
    ensures rows[i] == before[i]
    ensures Scan(before, ReserveRow(rows, i, firstTicket + |chosen|), chosen + [i], firstTicket, i + 1)
  {
    assert i !in chosen;
    ReserveKeepsExclusive(rows, i, firstTicket + |chosen|);
  }

  lemma HeldBackStep(before: seq<Row>, rows: seq<Row>, slots: nat, i: nat, ticket: nat)
    requires i < |rows| && rows[i].stage == Pending && slots > 0 && HeldBack(before, rows, slots, i)
    ensures HeldBack(before, ReserveRow(rows, i, ticket), slots - 1, i + 1)
  {
    ContentionGrows(rows, i, ticket);
    var r := ReserveRow(rows, i, ticket);
    forall k | 0 <= k < i + 1 ensures Restrained(before, r, k) {
      assert k < i ==> Restrained(before, rows, k);
    }
  }

  lemma HeldBackNow(before: seq<Row>, after: seq<Row>, chosen: seq<nat>, firstTicket: nat, slots: nat)
    requires Reservation(before, after, chosen, firstTicket) && HeldBack(before, after, slots, |after|)
    ensures slots == 0 || HeldBack(after, after, slots, |after|)
  {
    forall i | 0 <= i < |after| && slots > 0 ensures Restrained(after, after, i) {
      assert Restrained(before, after, i);
      if DependenciesMet(after, after[i].task) {
        SameAccepted(before, after, chosen, firstTicket, after[i].task);
      }
    }
  }

  /** The loop of reserve: take rows in order while slots last. */
  method Choose(status: seq<Row>, offered: nat, firstTicket: nat) returns (rows: seq<Row>, chosen: seq<nat>)
    requires Exclusive(status) && TicketsBelow(status, firstTicket)
    ensures Reservation(status, rows, chosen, firstTicket) && |chosen| <= offered
    ensures Exclusive(rows) && TicketsBelow(rows, firstTicket + |chosen|)
    ensures ActiveCount(rows) == ActiveCount(status) + |chosen|
    ensures |chosen| == offered || HeldBack(rows, rows, 1, |rows|)
  {
    rows, chosen := status, [];
    for i := 0 to |status|
      invariant Scan(status, rows, chosen, firstTicket, i) && |chosen| <= offered
      invariant ActiveCount(rows) == ActiveCount(status) + |chosen|
      invariant HeldBack(status, rows, offered - |chosen|, i)
    {
      rows, chosen := Consider(status, rows, chosen, firstTicket, offered, i);
    }
    HeldBackNow(status, rows, chosen, firstTicket, offered - |chosen|);
  }

  /** One row of the loop. */
  method Consider(status: seq<Row>, rows0: seq<Row>, chosen0: seq<nat>, firstTicket: nat, offered: nat, i: nat)
    returns (rows: seq<Row>, chosen: seq<nat>)
    requires Scan(status, rows0, chosen0, firstTicket, i) && i < |status| && |chosen0| <= offered
    requires HeldBack(status, rows0, offered - |chosen0|, i)
    ensures Scan(status, rows, chosen, firstTicket, i + 1) && |chosen0| <= |chosen| <= offered
    ensures ActiveCount(rows) - ActiveCount(rows0) == |chosen| - |chosen0|
    ensures HeldBack(status, rows, offered - |chosen|, i + 1)
  {
    if |chosen0| < offered && Startable(status, i) &&
      !(status[i].task.kind == Implement && Contended(rows0, status[i].task)) {
      TakeStep(status, rows0, chosen0, firstTicket, offered, i);
      rows, chosen := ReserveRow(rows0, i, firstTicket + |chosen0|), chosen0 + [i];
    } else {
      SkipStep(status, rows0, chosen0, firstTicket, offered, i);
      rows, chosen := rows0, chosen0;
    }
  }

  lemma TakeStep(before: seq<Row>, rows: seq<Row>, chosen: seq<nat>, firstTicket: nat, offered: nat, i: nat)
    requires Scan(before, rows, chosen, firstTicket, i) && i < |before| && |chosen| < offered && Startable(before, i)
    requires HeldBack(before, rows, offered - |chosen|, i)
    requires !(before[i].task.kind == Implement && Contended(rows, before[i].task))
    ensures var r := ReserveRow(rows, i, firstTicket + |chosen|);
            Scan(before, r, chosen + [i], firstTicket, i + 1) && ActiveCount(r) == ActiveCount(rows) + 1 &&
            HeldBack(before, r, offered - |chosen| - 1, i + 1)
  {
    ScanStep(before, rows, chosen, firstTicket, i);
    HeldBackStep(before, rows, offered - |chosen|, i, firstTicket + |chosen|);
    ActiveUpdate(rows, i, ReserveRow(rows, i, firstTicket + |chosen|)[i]);
  }

  lemma SkipStep(before: seq<Row>, rows: seq<Row>, chosen: seq<nat>, firstTicket: nat, offered: nat, i: nat)
    requires Scan(before, rows, chosen, firstTicket, i) && i < |before| && |chosen| <= offered
    requires HeldBack(before, rows, offered - |chosen|, i)
    requires |chosen| == offered || !Startable(before, i) ||
             (before[i].task.kind == Implement && Contended(rows, before[i].task))
    ensures HeldBack(before, rows, offered - |chosen|, i + 1)
  {
    assert i !in chosen;
  }

  /** The rows are those of these tasks, in order. */
  ghost predicate TasksOf(rows: seq<Row>, tasks: seq<Task>) {
    |rows| == |tasks| && forall i | 0 <= i < |rows| :: rows[i].task == tasks[i]
  }

  lemma ReservationKeepsTasks(before: seq<Row>, after: seq<Row>, chosen: seq<nat>, firstTicket: nat, tasks: seq<Task>)
    requires Reservation(before, after, chosen, firstTicket) && TasksOf(before, tasks)
    ensures TasksOf(after, tasks)
  {
    forall i | 0 <= i < |before| ensures after[i].task == before[i].task {
      if i in chosen {
        var k :| 0 <= k < |chosen| && chosen[k] == i;
      }
    }
  }

  class Plan {
    var definition: Option<Definition>
    var limits: Limits
    var rows: seq<Row>
    var launches: map<string, nat>   // the launch budget used so far, per generation
    var nextTicket: nat

    ghost predicate Valid()
      reads this
    {
      && Exclusive(rows)
      && ActiveCount(rows) <= limits.parallel <= MAX_PARALLEL
      && limits.launch <= MAX_LAUNCHES
      && TicketsBelow(rows, nextTicket)
      && (definition.Some? ==> limits == definition.value.limits && TasksOf(rows, definition.value.tasks))
    }

    function Used(): nat
      reads this
    {
      if limits.generation in launches then launches[limits.generation] else 0
    }

    constructor ()
      ensures Valid() && rows == [] && launches == map[] && definition == None
    {
      definition := None;
      limits := Limits("startup", 1, 1);
      rows, launches, nextTicket := [], map[], 0;
    }

    /** team.plan: the plan there is stays when it is asked for again, and one with started work is never replaced.
        unresolved: some dispatch of the plan is outstanding. */
    method Replace(wanted: Definition, unresolved: bool) returns (accepted: bool)
      requires Valid() && 1 <= wanted.limits.parallel <= MAX_PARALLEL && 1 <= wanted.limits.launch <= MAX_LAUNCHES
      modifies this
      ensures Valid() && launches == old(launches) && nextTicket == old(nextTicket)
      ensures accepted <==> old(definition) == Some(wanted) ||
                            old((forall r | r in rows :: r.stage == Accepted || r.stage == Abandoned) ||
                                ((forall r | r in rows :: r.stage == Pending || r.stage == Abandoned) && !unresolved))
      ensures accepted ==> definition == Some(wanted)
      ensures !accepted || old(definition) == Some(wanted) ==>
                rows == old(rows) && limits == old(limits) && definition == old(definition)
      ensures accepted && old(definition) != Some(wanted) ==>
                forall r | r in rows :: r.stage == Pending && r.ticket.None? && r.launched == 0 && r.result.None?
    {
      if definition == Some(wanted) {
        return true;
      }
      var unfinished := exists r :: r in rows && r.stage != Accepted && r.stage != Abandoned;
      var started := exists r :: r in rows && r.stage != Pending && r.stage != Abandoned;
      if unfinished && (started || unresolved) {
        return false;
      }
      definition, limits := Some(wanted), wanted.limits;
      rows := seq(|wanted.tasks|, i requires 0 <= i < |wanted.tasks| => Row(wanted.tasks[i], Pending, None, 0, None));
      NothingActive(rows);
      accepted := true;
    }

    /** team.reserve: greedy, in row order, never past either limit, never a second writer of a scope. */
    method Reserve() returns (chosen: seq<nat>)
      requires Valid()
      modifies this
      ensures Valid() && limits == old(limits) && definition == old(definition)
      ensures nextTicket == old(nextTicket) + |chosen|
      ensures Reservation(old(rows), rows, chosen, old(nextTicket))
      ensures limits.generation in launches
      ensures launches == old(launches)[limits.generation := launches[limits.generation]]
      ensures launches[limits.generation] ==
              |chosen| + if limits.generation in old(launches) then old(launches)[limits.generation] else 0
      ensures Used() <= if old(Used()) <= limits.launch then limits.launch else old(Used())
      ensures ActiveCount(rows) == old(ActiveCount(rows)) + |chosen|
      // whatever could start and did not is held back by a limit or by another writer
      ensures ActiveCount(rows) == limits.parallel || limits.launch <= Used() || HeldBack(rows, rows, 1, |rows|)
    {
      var active := ActiveCount(rows);
      var free, left := limits.parallel - active, limits.launch - Used();
      free := if free < left then free else left;
      rows, chosen := Choose(rows, if free < 0 then 0 else free, nextTicket);
      if definition.Some? {
        ReservationKeepsTasks(old(rows), rows, chosen, nextTicket, definition.value.tasks);
      }
      nextTicket := nextTicket + |chosen|;
      launches := launches[limits.generation := Used() + |chosen|];
    }

    /** Any later report about one row: joined, handed back, accepted, failed or abandoned, under the guards of
        team.py. */
    method Settle(i: nat, to: Stage, result: Option<Handback>, unresolved: bool) returns (ok: bool)
      requires Valid() && i < |rows|
      modifies this`rows
      ensures Valid()
      ensures ok <==> old(MaySettle(rows[i], to, unresolved))
      ensures rows == if !ok then old(rows) else
                old(rows)[i := old(rows)[i].(stage := to,
                                             result := if to == Returned then result else old(rows)[i].result)]
    {
      if !MaySettle(rows[i], to, unresolved) {
        return false;
      }
      var row := rows[i].(stage := to, result := if to == Returned then result else rows[i].result);
      ActiveUpdate(rows, i, row);
      rows := rows[i := row];
      ok := true;
    }
  }

  /** join, returned, accept, abandon and the legacy failure report. */
  predicate MaySettle(row: Row, to: Stage, unresolved: bool) {
    match to
    case Running => row.stage == Reserved || row.stage == Running
    case Returned => Occupies(row.stage)
    case Accepted => row.stage == Returned && row.result.Some? && (row.result.value.status in {Analysis, Tested}) &&
                     (row.task.kind == Implement ==> row.result.value.status == Tested && row.result.value.integrated)
    case Failed => Active(row.stage)
    case Abandoned => row.stage != Running && row.stage != Accepted && !unresolved
    case _ => false
  }

  lemma {:induction false} NothingActive(rows: seq<Row>)
    requires forall r | r in rows :: !Active(r.stage)
    ensures ActiveCount(rows) == 0
  {
    if rows != [] {
      NothingActive(rows[1..]);
    }
  }

  /** A reservation takes no contention away. */
  lemma ContentionGrows(rows: seq<Row>, i: nat, ticket: nat)
    requires i < |rows| && rows[i].stage == Pending
    ensures forall t | Contended(rows, t) :: Contended(ReserveRow(rows, i, ticket), t)
  {
    forall t | Contended(rows, t) ensures Contended(ReserveRow(rows, i, ticket), t) {
      var k :| 0 <= k < |rows| && Occupies(rows[k].stage) && Clash(t, rows[k].task);
      assert Occupies(ReserveRow(rows, i, ticket)[k].stage) && Clash(t, ReserveRow(rows, i, ticket)[k].task);
    }
  }

  lemma SameAccepted(before: seq<Row>, after: seq<Row>, chosen: seq<nat>, firstTicket: nat, t: Task)
    requires Reservation(before, after, chosen, firstTicket) && DependenciesMet(after, t)
    ensures DependenciesMet(before, t)
  {
    forall d | d in t.dependsOn
      ensures exists i :: 0 <= i < |before| && before[i].stage == Accepted && before[i].task.id == d
    {
      var i :| 0 <= i < |after| && after[i].stage == Accepted && after[i].task.id == d;
      assert before[i] == after[i];
    }
  }

  // ---------- what a reservation means ----------

  /** A row of this name is accepted. */
  ghost predicate IsAccepted(rows: seq<Row>, name: string) {
    exists i :: 0 <= i < |rows| && rows[i].task.id == name && rows[i].stage == Accepted
  }

  /** What a reservation changes was pending, and all it waits for was accepted. */
  lemma ReservedWasReady(before: seq<Row>, after: seq<Row>, chosen: seq<nat>, firstTicket: nat, i: nat)
    requires Reservation(before, after, chosen, firstTicket) && i < |before| && after[i] != before[i]
    ensures before[i].stage == Pending && forall d | d in before[i].task.dependsOn :: IsAccepted(before, d)
    ensures after[i].ticket.Some? && firstTicket <= after[i].ticket.value < firstTicket + |chosen|
    ensures after[i] == Row(before[i].task, Reserved, after[i].ticket, before[i].launched + 1, before[i].result)
  {
    assert i in chosen;
  }

  /** Two writers with paths that touch. */
  ghost predicate Collide(t: Task, u: Task) {
    t.kind == Implement && u.kind == Implement && exists p, q :: p in t.paths && q in u.paths && Paths.Overlaps(p, q)
  }

  /** Another row that is reserved, running or returned collides with row i. */
  ghost predicate Owned(rows: seq<Row>, i: nat)
    requires i < |rows|
  {
    exists j :: 0 <= j < |rows| && rows[j].stage in {Reserved, Running, Returned} && Collide(rows[i].task, rows[j].task)
  }

  /** What is left although all it waits for is accepted collides with a writer, unless the slots have run out. */
  lemma ReadyIsHeldBack(rows: seq<Row>, i: nat)
    requires HeldBack(rows, rows, 1, |rows|) && i < |rows| && rows[i].stage == Pending
    requires forall d | d in rows[i].task.dependsOn :: IsAccepted(rows, d)
    ensures Owned(rows, i)
  {
    assert Restrained(rows, rows, i);
    assert DependenciesMet(rows, rows[i].task) by {
      forall d | d in rows[i].task.dependsOn
        ensures exists k :: 0 <= k < |rows| && rows[k].stage == Accepted && rows[k].task.id == d
      {
        assert IsAccepted(rows, d);
      }
    }
    var j :| 0 <= j < |rows| && Occupies(rows[j].stage) && Clash(rows[i].task, rows[j].task);
    var a, b := rows[i].task.paths, rows[j].task.paths;
    var k, l :| 0 <= k < |a| && 0 <= l < |b| && Paths.Overlaps(a[k], b[l]);
    assert a[k] in a && b[l] in b;
  }

  /** When a report about a row is accepted. */
  lemma WhenSettled(row: Row, to: Stage, unresolved: bool)
    ensures MaySettle(row, Running, unresolved) <==> row.stage in {Reserved, Running}
    ensures MaySettle(row, Returned, unresolved) <==> row.stage in {Reserved, Running, Returned}
    ensures MaySettle(row, Failed, unresolved) <==> row.stage in {Reserved, Running}
    ensures MaySettle(row, Abandoned, unresolved) <==>
            row.stage in {Pending, Reserved, Returned, Failed, Abandoned} && !unresolved
    ensures MaySettle(row, Accepted, unresolved) <==>
            row.stage == Returned &&
            match row.result
            case None => false
            case Some(h) => if row.task.kind == Implement then h.status == Tested && h.integrated
                            else h.status == Tested || h.status == Analysis
    ensures to in {Pending, Reserved} ==> !MaySettle(row, to, unresolved)
  {
  }
}
