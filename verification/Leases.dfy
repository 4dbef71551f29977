/** The lease table of coordination.py. */
module Leases {
  import opened Paths

  datatype Lease = Lease(workspace: string, path: Path, owner: string, token: string)

  /** What the event log says about the tool call behind a token: its start and, if seen, its result. */
  datatype Start = Start(editTool: bool, editPaths: bool)
  datatype ToolEvent = ToolEvent(start: map<(string, string), Start>, running: set<(string, string)>)

  const TOOL: string := "tool:"

  predicate ToolToken(token: string) {
    TOOL <= token
  }

  function Lower(c: char): char {
    if 'A' <= c <= 'Z' then (c as int + 32) as char else c
  }

  /** SQLite's LIKE 'tool:%', which folds the case of ASCII letters. */
  predicate LikeTool(token: string) {
    |token| >= 5 && forall k | 0 <= k < 5 :: Lower(token[k]) == TOOL[k]
  }

  /** Why a claim of (owner, token) must not touch a path leased by row. */
  predicate Excludes(row: Lease, owner: string, token: string) {
    row.owner != owner || (ToolToken(row.token) && ToolToken(token) && row.token != token)
  }

  predicate Conflicts(row: Lease, workspace: string, owner: string, token: string, p: Path) {
    row.workspace == workspace && Excludes(row, owner, token) && Overlaps(p, row.path)
  }

  /** Two overlapping leases of one workspace have one owner and are not two different tool operations. */
  ghost predicate Compatible(rows: set<Lease>) {
    forall x, y | x in rows && y in rows && x.workspace == y.workspace && Overlaps(x.path, y.path) ::
      !Excludes(x, y.owner, y.token)
  }

  function Claimed(workspace: string, owner: string, token: string, paths: set<Path>): set<Lease> {
    set p | p in paths :: Lease(workspace, p, owner, token)
  }

  ghost predicate Blocked(rows: set<Lease>, workspace: string, owner: string, token: string, paths: set<Path>) {
    exists row, p :: row in rows && p in paths && Conflicts(row, workspace, owner, token, p)
  }

  /** A token whose edit is known to have started on paths and is not known to be still running. */
  predicate FinishedEdit(events: ToolEvent, owner: string, token: string) {
    && LikeTool(token)
    && var call := (owner, token[5..]);
    && call in events.start && events.start[call].editTool && events.start[call].editPaths
    && call !in events.running
  }

  class Coordinator {
    const workspace: string
    var rows: set<Lease>

    constructor (workspace: string)
      ensures this.workspace == workspace && rows == {}
    {
      this.workspace := workspace;
      rows := {};
    }

    /** All paths are checked against the table before the first row is added. */
    method Claim(owner: string, token: string, paths: set<Path>) returns (granted: bool)
      requires Compatible(rows)
      modifies this
      ensures Compatible(rows)
      ensures granted <==>
                owner != "" && token != "" && paths != {} && !old(Blocked(rows, workspace, owner, token, paths))
      ensures rows == if granted then old(rows) + Claimed(workspace, owner, token, paths) else old(rows)
    {
      if owner == "" || token == "" || paths == {} {
        return false;
      }
      var current := set row | row in rows && row.workspace == workspace;
      var todo := paths;
      while todo != {}
        invariant todo <= paths
        invariant forall row, p | row in rows && p in paths - todo :: !Conflicts(row, workspace, owner, token, p)
        decreases todo
      {
        var p :| p in todo;
        todo := todo - {p};
        if exists row :: row in current && Conflicts(row, workspace, owner, token, p) {
          return false;
        }
      }
      ClaimKeepsCompatible(rows, workspace, owner, token, paths);
      rows := rows + Claimed(workspace, owner, token, paths);
      granted := true;
    }

    /** release(owner) and release(owner, token). */
    method Release(owner: string, all: bool, token: string)
      requires Compatible(rows)
      modifies this
      ensures Compatible(rows)
      ensures rows == set row | row in old(rows) &&
              !(row.workspace == workspace && row.owner == owner && (all || row.token == token))
    {
      rows := set row | row in rows &&
                        !(row.workspace == workspace && row.owner == owner && (all || row.token == token));
    }

    /** End of a turn: drop the owner's own leases of finished structured edits, token by token. */
    method ReleaseFinishedEdits(owner: string, events: ToolEvent) returns (released: set<string>)
      requires Compatible(rows)
      modifies this
      ensures Compatible(rows)
      ensures rows == old(rows) - old(Held(rows, workspace, owner, released))
      ensures forall token :: token in released <==>
                FinishedEdit(events, owner, token) &&
                old(exists row :: row in rows && Own(row, workspace, owner) && row.token == token)
    {
      released := {};
      var own := set row | row in rows && Own(row, workspace, owner);
      var tokens := set row | row in own && LikeTool(row.token) :: row.token;
      var todo := tokens;
      while todo != {}
        invariant todo <= tokens && released == set token | token in tokens - todo && FinishedEdit(events, owner, token)
        invariant rows == old(rows) - Held(old(rows), workspace, owner, released)
        decreases todo
      {
        var token :| token in todo;
        todo := todo - {token};
        if FinishedEdit(events, owner, token) {
          rows := set row | row in rows && !(Own(row, workspace, owner) && row.token == token);
          released := released + {token};
        }
      }
    }
  }

  predicate Own(row: Lease, workspace: string, owner: string) {
    row.workspace == workspace && row.owner == owner
  }

  /** The rows of one owner under the given tokens. */
  function Held(rows: set<Lease>, workspace: string, owner: string, tokens: set<string>): set<Lease> {
    set row | row in rows && Own(row, workspace, owner) && row.token in tokens
  }

  /** So reconciliation touches no other owner, no manual or job lease and no edit that may still be running. */
  lemma ReconciliationIsNarrow(rows: set<Lease>, workspace: string, owner: string, events: ToolEvent,
                               released: set<string>, row: Lease)
    requires forall token :: token in released <==>
               FinishedEdit(events, owner, token) &&
               exists r :: r in rows && Own(r, workspace, owner) && r.token == token
    requires row in rows
    ensures row !in rows - Held(rows, workspace, owner, released) <==>
            row.workspace == workspace && row.owner == owner && FinishedEdit(events, owner, row.token)
  {
    if Own(row, workspace, owner) && FinishedEdit(events, owner, row.token) {
      assert row.token in released;
    }
  }

  lemma ClaimKeepsCompatible(rows: set<Lease>, workspace: string, owner: string, token: string, paths: set<Path>)
    requires Compatible(rows) && !Blocked(rows, workspace, owner, token, paths)
    ensures Compatible(rows + Claimed(workspace, owner, token, paths))
  {
    forall x, y | x in rows + Claimed(workspace, owner, token, paths) &&
      y in rows + Claimed(workspace, owner, token, paths) &&
                  x.workspace == y.workspace && Overlaps(x.path, y.path)
      ensures !Excludes(x, y.owner, y.token)
    {
      OverlapsSymmetric(x.path, y.path);
      if x in rows && y !in rows {
        assert !Conflicts(x, workspace, owner, token, y.path);
      } else if y in rows && x !in rows {
        assert !Conflicts(y, workspace, owner, token, x.path);
      }
    }
  }

  // ---------- what the table means ----------

  /** In a compatible table whatever touches in a workspace is of one owner, and of two leases for different tools'
      calls at most one is there. */
  lemma TouchingLeases(rows: set<Lease>)
    ensures Compatible(rows) <==>
            forall x, y | x in rows && y in rows && x.workspace == y.workspace && Overlaps(x.path, y.path) ::
              x.owner == y.owner && (x.token == y.token || !("tool:" <= x.token && "tool:" <= y.token))
  {
  }

  /** A claim is blocked exactly by a lease that touches one of its paths: another owner's, or one for another tool's
      call. */
  lemma WhenBlocked(rows: set<Lease>, workspace: string, owner: string, token: string, paths: set<Path>)
    ensures Blocked(rows, workspace, owner, token, paths) <==>
            exists row, p :: row in rows && p in paths && row.workspace == workspace && Overlaps(p, row.path) &&
              (row.owner == owner ==> row.token != token && "tool:" <= row.token && "tool:" <= token)
  {
    if row, p :| row in rows && p in paths && row.workspace == workspace && Overlaps(p, row.path) &&
                 (row.owner == owner ==> row.token != token && "tool:" <= row.token && "tool:" <= token) {
      assert Conflicts(row, workspace, owner, token, p);
    }
    if Blocked(rows, workspace, owner, token, paths) {
      var row, p :| row in rows && p in paths && Conflicts(row, workspace, owner, token, p);
      assert Overlaps(p, row.path);
    }
  }

  /** What is claimed is one lease a path. */
  lemma OneLeaseEach(workspace: string, owner: string, token: string, paths: set<Path>, row: Lease)
    ensures row in Claimed(workspace, owner, token, paths) <==>
            row.path in paths && row == Lease(workspace, row.path, owner, token)
  {
  }

  /** After a grant every path that touches one of the claimed ones is leased by the same owner alone. */
  lemma GrantedIsExclusive(rows: set<Lease>, workspace: string, owner: string, token: string, paths: set<Path>,
                           p: Path, row: Lease)
    requires Compatible(rows) && !Blocked(rows, workspace, owner, token, paths) && p in paths
    requires row in rows + Claimed(workspace, owner, token, paths) && row.workspace == workspace
    requires Overlaps(p, row.path)
    ensures row.owner == owner && (row.token == token || !("tool:" <= row.token && "tool:" <= token))
  {
    if row in rows {
      assert !Conflicts(row, workspace, owner, token, p);
    }
  }

  /** An edit is over if its token begins with "tool:" in any case and the call it names was started by this owner with
      an editing tool on some paths and is not recorded as running. */
  lemma WhenFinished(events: ToolEvent, owner: string, token: string)
    ensures FinishedEdit(events, owner, token) <==>
            && |token| >= 5 && token[0] in {'t', 'T'} && token[1] in {'o', 'O'} && token[2] in {'o', 'O'}
            && token[3] in {'l', 'L'} && token[4] == ':'
            && (owner, token[5..]) in events.start && (owner, token[5..]) !in events.running
            && events.start[(owner, token[5..])] == Start(true, true)
  {
    if |token| >= 5 {
      assert TOOL[0] == 't' && TOOL[1] == 'o' && TOOL[2] == 'o' && TOOL[3] == 'l' && TOOL[4] == ':';
    }
  }
}
