/** The work capsule of a round: the JSON of goal, requirements, decision and task, of which Crew._round bounds the
    length. */
module Capsules {
  import opened Wrappers
  import opened Texts
  import opened Work

  const CAPSULE_LIMIT: nat := 22000

  /** Description, completion criteria and reason of a lens, as JSON. */
  function LensSize(of: Lenses, slot: nat): nat {
    var descriptions := if of == PlanLenses then [98, 76, 94, 90, 102, 92] else [84, 78, 69, 59, 108, 114];
    62 + 88 + if slot < 6 then descriptions[slot] else 0
  }

  function BriefSize(b: Brief): nat {
    match b
    case Lens(of, slot) => LensSize(of, slot)
    case Given(description, _, doneWhen, why) => QuotedSize(description) + ListSize(doneWhen) + QuotedSize(why)
  }

  function KindSize(k: Kind): nat {
    match k
    case Investigate => 13
    case Implement => 11
    case Verify => 8
  }

  /** A task under its seven keys. */
  function JobSize(t: Task): nat {
    82 + QuotedSize(t.id) + KindSize(t.kind) + ListSize(t.paths) + ListSize(t.dependsOn) + BriefSize(t.brief)
  }

  /** No decision is null. */
  function DecisionSize(decision: Option<string>): nat {
    if decision.Some? then QuotedSize(decision.value) else 4
  }

  /** Four keys and their values. */
  function CapsuleSize(goal: string, requirements: seq<string>, decision: Option<string>, t: Task): nat {
    44 + QuotedSize(goal) + ListSize(requirements) + DecisionSize(decision) + JobSize(t)
  }

  /** Every task of a round has a capsule within its budget. */
  predicate CapsulesFit(goal: string, requirements: seq<string>, decision: Option<string>, tasks: seq<Task>) {
    forall i | 0 <= i < |tasks| :: CapsuleSize(goal, requirements, decision, tasks[i]) <= CAPSULE_LIMIT
  }

  /** A capsule is longer than what it says: texts that are too long together fit in no round, however they are
      split. */
  lemma CapsuleHolds(goal: string, requirements: seq<string>, decision: Option<string>, t: Task)
    ensures |goal| + Letters(requirements) + Letters(t.paths) + 150 <= CapsuleSize(goal, requirements, decision, t)
  {
    QuotedHolds(goal);
    ListHolds(requirements);
    ListHolds(t.paths);
  }

  // ---------- the text itself ----------

  function HexDigit(n: nat): char {
    if n < 10 then (48 + n) as char else if n < 16 then (87 + n) as char else '0'
  }

  /** A character as JSON writes it. */
  function Escape(c: char): string {
    var k := c as int;
    if c == '"' then "\\\""
    else if c == '\\' then "\\\\"
    else if k == 8 then "\\b"
    else if k == 9 then "\\t"
    else if k == 10 then "\\n"
    else if k == 12 then "\\f"
    else if k == 13 then "\\r"
    else if k < 32 then "\\u00" + [HexDigit(k / 16), HexDigit(k % 16)]
    else [c]
  }

  function Escaped(x: string): string {
    if x == "" then "" else Escape(x[0]) + Escaped(x[1..])
  }

  function Quoted(x: string): string {
    "\"" + Escaped(x) + "\""
  }

  /** Each string with what separates it from the rest, or ends the list. */
  function Items(xs: seq<string>): string
    requires xs != []
  {
    Quoted(xs[0]) + if |xs| == 1 then "]" else "," + Items(xs[1..])
  }

  function List(xs: seq<string>): string {
    if xs == [] then "[]" else "[" + Items(xs)
  }

  function KindName(k: Kind): string {
    match k
    case Investigate => "investigate"
    case Implement => "implement"
    case Verify => "verify"
  }

  /** A task with texts of its author, its keys in alphabetical order. */
  function Job(t: Task): string
    requires t.brief.Given?
  {
    "{\"depends_on\":" + List(t.dependsOn) + ",\"description\":" + Quoted(t.brief.description) +
    ",\"done_when\":" + List(t.brief.doneWhen) + ",\"id\":" + Quoted(t.id) + ",\"kind\":" + Quoted(KindName(t.kind)) +
    ",\"paths\":" + List(t.paths) + ",\"why_parallel\":" + Quoted(t.brief.why) + "}"
  }

  function Capsule(goal: string, requirements: seq<string>, decision: Option<string>, t: Task): string
    requires t.brief.Given?
  {
    "{\"decision\":" + (if decision.Some? then Quoted(decision.value) else "null") + ",\"goal\":" + Quoted(goal) +
    ",\"job\":" + Job(t) + ",\"requirements\":" + List(requirements) + "}"
  }

  lemma {:induction false} EscapedIsCounted(x: string)
    ensures |Escaped(x)| == EscapedSize(x) && |Quoted(x)| == QuotedSize(x)
    decreases |x|
  {
    if x != "" {
      EscapedIsCounted(x[1..]);
      assert |Escape(x[0])| == EscapeSize(x[0]);
    }
  }

  lemma {:induction false} ItemsAreCounted(xs: seq<string>)
    requires xs != []
    ensures |Items(xs)| == ItemsSize(xs)
    decreases |xs|
  {
    EscapedIsCounted(xs[0]);
    if |xs| == 1 {
      assert xs[1..] == [];
    } else {
      ItemsAreCounted(xs[1..]);
    }
  }

  lemma ListIsCounted(xs: seq<string>)
    ensures |List(xs)| == ListSize(xs)
  {
    if xs != [] {
      ItemsAreCounted(xs);
    }
  }

  lemma {:induction false} NamesAreCounted(k: Kind)
    ensures |Quoted(KindName(k))| == KindSize(k)
  {
    EscapedIsCounted(KindName(k));
    PlainLetters(KindName(k));
  }

  lemma {:induction false} PlainLetters(x: string)
    requires forall i | 0 <= i < |x| :: 'a' <= x[i] <= 'z'
    ensures EscapedSize(x) == |x|
    decreases |x|
  {
    if x != "" {
      PlainLetters(x[1..]);
    }
  }

  lemma JobIsCounted(t: Task)
    requires t.brief.Given?
    ensures |Job(t)| == JobSize(t)
  {
    EscapedIsCounted(t.id);
    EscapedIsCounted(t.brief.description);
    EscapedIsCounted(t.brief.why);
    ListIsCounted(t.dependsOn);
    ListIsCounted(t.brief.doneWhen);
    ListIsCounted(t.paths);
    NamesAreCounted(t.kind);
  }

  /** What is bounded is the length of the capsule as it is written: keys in order, no white space, only quotes,
      backslashes and control characters escaped. */
  lemma CapsuleIsCounted(goal: string, requirements: seq<string>, decision: Option<string>, t: Task)
    requires t.brief.Given?
    ensures |Capsule(goal, requirements, decision, t)| == CapsuleSize(goal, requirements, decision, t)
  {
    EscapedIsCounted(goal);
    ListIsCounted(requirements);
    JobIsCounted(t);
    if decision.Some? {
      EscapedIsCounted(decision.value);
    }
  }
}
