/** native_receipts._read_receipt: a resumable scan of an append-only transcript for one call and its output. */
module Receipts {
  import opened Wrappers

  const MAX_LINE: nat := 2 * 1024 * 1024
  const MAX_READ: nat := 8 * 1024 * 1024
  const LIMIT: nat := MAX_LINE + 1

  /** What one line of the transcript says. */
  datatype Entry =
    | Malformed
    | TurnContext(turn: Option<string>)
    | FunctionCall(callId: string, name: string, arguments: string)
    | FunctionOutput(callId: string, output: string)
    | Other

  /** The fixed part of a saved receipt request. */
  datatype Expected = Expected(callId: string, kind: string, input: string, turn: Option<string>, identity: string,
                               header: string)

  /** The part that moves. */
  datatype Cursor = Cursor(offset: nat, atBoundary: bool, matched: bool, turn: Option<string>)

  datatype Problem = Replaced | BadHeader | TooLong | BadRecord | InputMismatch | OtherTurn

  datatype Outcome = Nothing | Receipt(output: string, start: nat) | Failed(problem: Problem)

  datatype Scanned = Scanned(outcome: Outcome, cursor: Cursor)

  datatype File = File(identity: string, text: string)

  type Parser = string -> Entry

  /** Where stream.readline(limit), called at pos, stops. */
  function LineEnd(s: string, pos: nat, limit: nat): (end: nat)
    requires pos <= |s|
    ensures pos <= end <= |s| && end <= pos + limit
    decreases limit
  {
    if limit == 0 || pos == |s| then pos
    else if s[pos] == '\n' then pos + 1
    else LineEnd(s, pos + 1, limit - 1)
  }

  /** line.endswith(b'\n') for the line read at pos. */
  predicate Complete(s: string, pos: nat)
    requires pos <= |s|
  {
    var end := LineEnd(s, pos, LIMIT);
    end > pos && s[end - 1] == '\n'
  }

  datatype Verdict = More(matched: bool, turn: Option<string>) | Found(output: string) | Bad(problem: Problem)

  /** The effect of one record on the scan. */
  function Judge(e: Expected, c: Cursor, entry: Entry): Verdict {
    match entry
    case Malformed => Bad(BadRecord)
    case TurnContext(turn) => More(c.matched, turn)
    case FunctionCall(id, name, arguments) =>
      if id != e.callId then More(c.matched, c.turn)
      else if name != e.kind || arguments != e.input then Bad(InputMismatch)
      else if c.turn.Some? && e.turn.Some? && c.turn != e.turn then Bad(OtherTurn)
      else More(true, c.turn)
    case FunctionOutput(id, output) =>
      if id == e.callId && c.matched then Found(output) else More(c.matched, c.turn)
    case Other => More(c.matched, c.turn)
  }

  /** The scan from pos; budget None is a scan without a read limit. */
  function Scan(s: string, parse: Parser, e: Expected, c: Cursor, pos: nat, budget: Option<int>): Scanned
    requires pos <= |s|
    decreases |s| - pos
  {
    if budget.Some? && budget.value <= 0 then Scanned(Nothing, c)
    else if !Complete(s, pos) then Scanned(Nothing, c)
    else
      var end := LineEnd(s, pos, LIMIT);
      if end - pos > MAX_LINE then Scanned(Failed(TooLong), c)
      else
        match Judge(e, c, parse(s[pos..end]))
        case Bad(p) => Scanned(Failed(p), c)
        case Found(output) => Scanned(Receipt(output, pos), Cursor(end, true, c.matched, c.turn))
        case More(matched, turn) =>
          Scan(s, parse, e, Cursor(end, true, matched, turn), end,
               if budget.Some? then Some(budget.value - (end - pos)) else None)
  }

  /** Where the loop starts: after the bounded look-behind fragment, if the cursor is not at a line boundary. */
  function Start(s: string, c: Cursor): (pos: nat)
    requires c.offset <= |s|
    ensures c.offset <= pos <= |s|
  {
    if c.atBoundary then c.offset else LineEnd(s, c.offset, LIMIT)
  }

  predicate HeaderOk(f: File, e: Expected) {
    var end := LineEnd(f.text, 0, LIMIT);
    end <= MAX_LINE && Complete(f.text, 0) && f.text[..end] == e.header
  }

  /** One call. An error leaves the saved cursor as it was. */
  function Read(f: File, parse: Parser, e: Expected, c: Cursor, budget: Option<int>): Scanned {
    if f.identity != e.identity || |f.text| < c.offset then Scanned(Failed(Replaced), c)
    else if !HeaderOk(f, e) then Scanned(Failed(BadHeader), c)
    else
      var r := Scan(f.text, parse, e, c, Start(f.text, c), budget);
      if r.outcome.Failed? then Scanned(r.outcome, c) else r
  }

  method ReadReceipt(f: File, parse: Parser, e: Expected, saved: Cursor, budget: nat) returns (r: Scanned)
    ensures r == Read(f, parse, e, saved, Some(budget))
  {
    if f.identity != e.identity || |f.text| < saved.offset {
      return Scanned(Failed(Replaced), saved);
    }
    if !HeaderOk(f, e) {
      return Scanned(Failed(BadHeader), saved);
    }
    var c, pos, read := saved, Start(f.text, saved), 0;
    while read < budget
      invariant pos <= |f.text|
      invariant Scan(f.text, parse, e, saved, Start(f.text, saved), Some(budget)) ==
                Scan(f.text, parse, e, c, pos, Some(budget - read))
      decreases |f.text| - pos
    {
      var start := pos;
      pos := LineEnd(f.text, start, LIMIT);
      if pos == start || f.text[pos - 1] != '\n' {
        return Scanned(Nothing, c);
      }
      if pos - start > MAX_LINE {
        return Scanned(Failed(TooLong), saved);
      }
      read := read + (pos - start);
      match Judge(e, c, parse(f.text[start..pos])) {
        case Bad(p) =>
          return Scanned(Failed(p), saved);
        case Found(output) =>
          return Scanned(Receipt(output, start), Cursor(pos, true, c.matched, c.turn));
        case More(matched, turn) =>
          c := Cursor(pos, true, matched, turn);
      }
    }
    r := Scanned(Nothing, c);
  }

  // ---------- resuming ----------

  /** A line that was complete stays the same line when the file grows. */
  lemma {:induction false} LineEndGrows(s: string, t: string, pos: nat, limit: nat)
    requires s <= t && pos <= |s|
    ensures var end := LineEnd(s, pos, limit);
            end == |s| || LineEnd(t, pos, limit) == end
    ensures var end := LineEnd(s, pos, limit);
            end > pos && s[end - 1] == '\n' ==> LineEnd(t, pos, limit) == end
    decreases limit
  {
    if limit > 0 && pos < |s| && s[pos] != '\n' {
      LineEndGrows(s, t, pos + 1, limit - 1);
    }
  }

  lemma CompleteGrows(s: string, t: string, pos: nat)
    requires s <= t && pos <= |s| && Complete(s, pos)
    ensures Complete(t, pos) && LineEnd(t, pos, LIMIT) == LineEnd(s, pos, LIMIT)
  {
    LineEndGrows(s, t, pos, LIMIT);
  }

  predicate Spent(budget: Option<int>) {
    budget.Some? && budget.value <= 0
  }

  function Left(budget: Option<int>, n: nat): Option<int> {
    if budget.Some? then Some(budget.value - n) else None
  }

  /** The line read at pos. */
  function Line(s: string, pos: nat): string
    requires pos <= |s|
  {
    s[pos..LineEnd(s, pos, LIMIT)]
  }

  lemma LineGrows(s: string, t: string, pos: nat)
    requires s <= t && pos <= |s| && Complete(s, pos)
    ensures Complete(t, pos) && LineEnd(t, pos, LIMIT) == LineEnd(s, pos, LIMIT) && Line(t, pos) == Line(s, pos)
  {
    CompleteGrows(s, t, pos);
    var end := LineEnd(s, pos, LIMIT);
    assert t[..|s|] == s;
    assert t[pos..end] == t[..|s|][pos..end];
  }

  /** A line that decides nothing is passed. */
  lemma ScanPasses(s: string, parse: Parser, e: Expected, c: Cursor, pos: nat, budget: Option<int>)
    requires pos <= |s| && !Spent(budget) && Complete(s, pos) && |Line(s, pos)| <= MAX_LINE
    requires Judge(e, c, parse(Line(s, pos))).More?
    ensures var v := Judge(e, c, parse(Line(s, pos)));
            var end := LineEnd(s, pos, LIMIT);
            Scan(s, parse, e, c, pos, budget) ==
            Scan(s, parse, e, Cursor(end, true, v.matched, v.turn), end, Left(budget, end - pos))
  {
  }

  /** A line that decides does so on every version that has it. */
  lemma ScanDecides(s: string, t: string, parse: Parser, e: Expected, c: Cursor, pos: nat, budget: Option<int>)
    requires s <= t && pos <= |s| && !Spent(budget) && Complete(s, pos)
    requires |Line(s, pos)| <= MAX_LINE ==> !Judge(e, c, parse(Line(s, pos))).More?
    ensures Scan(s, parse, e, c, pos, budget) == Scan(t, parse, e, c, pos, None)
    ensures Scan(s, parse, e, c, pos, budget).outcome != Nothing
  {
    LineGrows(s, t, pos);
  }

  /** What the scan of s leaves to be done on t: nothing, if it has a verdict, else everything from its cursor on. */
  ghost predicate Resumes(s: string, t: string, parse: Parser, e: Expected, c: Cursor, pos: nat, r: Scanned)
    requires pos <= |t| && |s| <= |t|
  {
    if r.outcome != Nothing then r == Scan(t, parse, e, c, pos, None)
    else
      r.cursor == c ||
      (r.cursor.atBoundary && pos < r.cursor.offset <= |s| &&
       Scan(t, parse, e, r.cursor, r.cursor.offset, None) == Scan(t, parse, e, c, pos, None))
  }

  /** Going on from the next line is going on from this one. */
  lemma ResumesEarlier(s: string, t: string, parse: Parser, e: Expected, c: Cursor, pos: nat, r: Scanned)
    requires s <= t && pos <= |s| && Complete(s, pos) && |Line(s, pos)| <= MAX_LINE
    requires var v := Judge(e, c, parse(Line(s, pos)));
             var end := LineEnd(s, pos, LIMIT);
             v.More? && Resumes(s, t, parse, e, Cursor(end, true, v.matched, v.turn), end, r)
    ensures Resumes(s, t, parse, e, c, pos, r)
  {
    LineGrows(s, t, pos);
    ScanPasses(t, parse, e, c, pos, None);
  }

  /** Stopping early and going on later, on a longer file, loses nothing. */
  lemma {:induction false} ScanResumes(s: string, t: string, parse: Parser, e: Expected, c: Cursor, pos: nat,
                                       budget: Option<int>)
    requires s <= t && pos <= |s|
    ensures Resumes(s, t, parse, e, c, pos, Scan(s, parse, e, c, pos, budget))
    decreases |s| - pos
  {
    if Spent(budget) || !Complete(s, pos) {
    } else if |Line(s, pos)| <= MAX_LINE && Judge(e, c, parse(Line(s, pos))).More? {
      var v := Judge(e, c, parse(Line(s, pos)));
      var end := LineEnd(s, pos, LIMIT);
      ScanPasses(s, parse, e, c, pos, budget);
      ScanResumes(s, t, parse, e, Cursor(end, true, v.matched, v.turn), end, Left(budget, end - pos));
      ResumesEarlier(s, t, parse, e, c, pos, Scan(s, parse, e, c, pos, budget));
    } else {
      ScanDecides(s, t, parse, e, c, pos, budget);
    }
  }

  // ---------- what a receipt rests on ----------

  /** At this position the transcript records an output of the expected call. */
  ghost predicate OutputAt(s: string, parse: Parser, e: Expected, pos: nat, output: string) {
    pos <= |s| && Complete(s, pos) && parse(Line(s, pos)) == FunctionOutput(e.callId, output)
  }

  /** At this position it records the call itself, with the kind and input that were expected. */
  ghost predicate CallAt(s: string, parse: Parser, e: Expected, pos: nat) {
    pos <= |s| && Complete(s, pos) && parse(Line(s, pos)) == FunctionCall(e.callId, e.kind, e.input)
  }

  /** A receipt is the output line of the expected call, and that call was recorded before it. */
  lemma {:induction false} ScanFinds(s: string, parse: Parser, e: Expected, c: Cursor, pos: nat, budget: Option<int>)
    requires pos <= |s| && Scan(s, parse, e, c, pos, budget).outcome.Receipt?
    ensures var r := Scan(s, parse, e, c, pos, budget).outcome;
            && pos <= r.start && OutputAt(s, parse, e, r.start, r.output)
            && (c.matched || exists k :: pos <= k < r.start && CallAt(s, parse, e, k))
    decreases |s| - pos
  {
    var v := Judge(e, c, parse(Line(s, pos)));
    if v.More? {
      var end := LineEnd(s, pos, LIMIT);
      ScanPasses(s, parse, e, c, pos, budget);
      ScanFinds(s, parse, e, Cursor(end, true, v.matched, v.turn), end, Left(budget, end - pos));
      if v.matched && !c.matched {
        assert CallAt(s, parse, e, pos);
      }
    }
  }

  /** What one call returns as a receipt is an output line of the transcript it read, after the cursor; the call is
      recorded before it, unless an earlier reading had matched it. */
  lemma ReadFinds(f: File, parse: Parser, e: Expected, c: Cursor, budget: Option<int>)
    requires Read(f, parse, e, c, budget).outcome.Receipt?
    ensures f.identity == e.identity && HeaderOk(f, e)
    ensures var r := Read(f, parse, e, c, budget).outcome;
            && c.offset <= r.start && OutputAt(f.text, parse, e, r.start, r.output)
            && (c.matched || exists k :: c.offset <= k < r.start && CallAt(f.text, parse, e, k))
  {
    ScanFinds(f.text, parse, e, c, Start(f.text, c), budget);
  }

  /** A scan only moves on, and it matches the call only where the transcript records it. */
  lemma {:induction false} ScanMatches(s: string, parse: Parser, e: Expected, c: Cursor, pos: nat, budget: Option<int>)
    requires c.offset <= pos <= |s|
    ensures var r := Scan(s, parse, e, c, pos, budget).cursor;
            && c.offset <= r.offset
            && (r.matched && !c.matched ==> exists k :: pos <= k < r.offset && CallAt(s, parse, e, k))
    decreases |s| - pos
  {
    if !Spent(budget) && Complete(s, pos) && |Line(s, pos)| <= MAX_LINE {
      var v := Judge(e, c, parse(Line(s, pos)));
      if v.More? {
        var end := LineEnd(s, pos, LIMIT);
        ScanPasses(s, parse, e, c, pos, budget);
        ScanMatches(s, parse, e, Cursor(end, true, v.matched, v.turn), end, Left(budget, end - pos));
        if v.matched && !c.matched {
          assert CallAt(s, parse, e, pos);
        }
      }
    }
  }

  lemma ReadMatches(f: File, parse: Parser, e: Expected, c: Cursor, budget: Option<int>)
    ensures var r := Read(f, parse, e, c, budget).cursor;
            && c.offset <= r.offset
            && (r.matched && !c.matched ==> exists k :: c.offset <= k < r.offset && CallAt(f.text, parse, e, k))
  {
    if |f.text| >= c.offset {
      ScanMatches(f.text, parse, e, c, Start(f.text, c), budget);
    }
  }

  /** The cursor as it is saved when a call is dispatched: nothing is matched yet. */
  function Fresh(e: Expected, offset: nat): Cursor {
    Cursor(offset, offset == |e.header|, false, None)
  }

  /** The cursor that one reading after another leaves behind. */
  function Resume(files: seq<File>, parse: Parser, e: Expected, c: Cursor): Cursor
    decreases |files|
  {
    if files == [] then c
    else Resume(files[1..], parse, e, Read(files[0], parse, e, c, Some(MAX_READ)).cursor)
  }

  /** The transcript records the call before this place. */
  ghost predicate CallBefore(f: File, parse: Parser, e: Expected, before: nat) {
    exists k: nat :: k < before && CallAt(f.text, parse, e, k)
  }

  /** One of these readings found the call recorded before this place. */
  ghost predicate Recorded(files: seq<File>, parse: Parser, e: Expected, before: nat) {
    exists f :: f in files && CallBefore(f, parse, e, before)
  }

  lemma BeforeLater(f: File, parse: Parser, e: Expected, before: nat, later: nat)
    requires CallBefore(f, parse, e, before) && before <= later
    ensures CallBefore(f, parse, e, later)
  {
  }

  lemma {:induction false} OffsetGrows(files: seq<File>, parse: Parser, e: Expected, c: Cursor)
    ensures c.offset <= Resume(files, parse, e, c).offset
    decreases |files|
  {
    if files != [] {
      ReadMatches(files[0], parse, e, c, Some(MAX_READ));
      OffsetGrows(files[1..], parse, e, Read(files[0], parse, e, c, Some(MAX_READ)).cursor);
    }
  }

  /** A cursor is marked matched only by a reading that found the recorded call. */
  lemma {:induction false} MatchedIsRecorded(files: seq<File>, parse: Parser, e: Expected, c: Cursor)
    requires !c.matched && Resume(files, parse, e, c).matched
    ensures Recorded(files, parse, e, Resume(files, parse, e, c).offset)
    decreases |files|
  {
    var d := Read(files[0], parse, e, c, Some(MAX_READ)).cursor;
    ReadMatches(files[0], parse, e, c, Some(MAX_READ));
    if d.matched {
      OffsetGrows(files[1..], parse, e, d);
      BeforeLater(files[0], parse, e, d.offset, Resume(files, parse, e, c).offset);
    } else {
      MatchedIsRecorded(files[1..], parse, e, d);
      var f :| f in files[1..] && CallBefore(f, parse, e, Resume(files, parse, e, c).offset);
      assert f in files;
    }
  }

  /** The reading of now, after the earlier ones. */
  function ReadOn(earlier: seq<File>, f: File, parse: Parser, e: Expected, offset: nat): Outcome {
    Read(f, parse, e, Resume(earlier, parse, e, Fresh(e, offset)), Some(MAX_READ)).outcome
  }

  /** Whatever was read before, a receipt is an output line of the expected call, and one of the readings found that
      call recorded, with the expected kind and input, at an earlier place. */
  lemma ReceiptIsRecorded(earlier: seq<File>, f: File, parse: Parser, e: Expected, offset: nat)
    requires ReadOn(earlier, f, parse, e, offset).Receipt?
    ensures f.identity == e.identity && HeaderOk(f, e)
    ensures var r := ReadOn(earlier, f, parse, e, offset);
            OutputAt(f.text, parse, e, r.start, r.output) && Recorded(earlier + [f], parse, e, r.start)
  {
    var c := Resume(earlier, parse, e, Fresh(e, offset));
    var r := ReadOn(earlier, f, parse, e, offset);
    ReadFinds(f, parse, e, c, Some(MAX_READ));
    if c.matched {
      MatchedIsRecorded(earlier, parse, e, Fresh(e, offset));
      var g :| g in earlier && CallBefore(g, parse, e, c.offset);
      BeforeLater(g, parse, e, c.offset, r.start);
      assert g in earlier + [f];
    } else {
      assert CallBefore(f, parse, e, r.start) && f in earlier + [f];
    }
  }

  lemma CallStays(s: string, t: string, parse: Parser, e: Expected, k: nat)
    requires s <= t && CallAt(s, parse, e, k)
    ensures CallAt(t, parse, e, k)
  {
    LineGrows(s, t, k);
    assert k <= |t| && Line(t, k) == Line(s, k);
  }

  /** In a transcript that was only appended to, the recorded call is still there. */
  lemma RecordStays(earlier: seq<File>, f: File, parse: Parser, e: Expected, before: nat)
    requires Recorded(earlier + [f], parse, e, before) && forall g | g in earlier :: Extends(g, f)
    ensures CallBefore(f, parse, e, before)
  {
    var g :| g in earlier + [f] && CallBefore(g, parse, e, before);
    if g != f {
      assert g in earlier;
      var k: nat :| k < before && CallAt(g.text, parse, e, k);
      CallStays(g.text, f.text, parse, e, k);
    }
  }

  // ---------- schedules ----------

  /** A later version of the same transcript. */
  predicate Extends(f: File, g: File) {
    f.identity == g.identity && f.text <= g.text
  }

  /** What one unbounded scan of the final transcript answers. */
  function Full(final: File, parse: Parser, e: Expected, c: Cursor): Outcome {
    Read(final, parse, e, c, None).outcome
  }

  lemma HeaderStays(f: File, final: File, e: Expected)
    requires Extends(f, final) && HeaderOk(f, e)
    ensures HeaderOk(final, e)
  {
    CompleteGrows(f.text, final.text, 0);
  }

  /** One bounded call on an earlier version: a verdict is the final verdict, and no verdict is no loss. */
  lemma CallAgrees(f: File, final: File, parse: Parser, e: Expected, c: Cursor, budget: nat)
    requires Extends(f, final) && f.identity == e.identity && HeaderOk(f, e) && c.offset <= |f.text|
    ensures var r := Read(f, parse, e, c, Some(budget));
            && (r.outcome != Nothing ==> r.outcome == Full(final, parse, e, c))
            && (r.outcome == Nothing ==>
                  c.offset <= r.cursor.offset <= |f.text| &&
                  Full(final, parse, e, r.cursor) == Full(final, parse, e, c))
            && (r.outcome == Nothing && f == final && budget > 0 && r.cursor.offset == c.offset ==>
                  Full(final, parse, e, c) == Nothing)
  {
    HeaderStays(f, final, e);
    LineEndGrows(f.text, final.text, c.offset, LIMIT);
    var pos := Start(f.text, c);
    if pos == Start(final.text, c) {
      ScanResumes(f.text, final.text, parse, e, c, pos, Some(budget));
      if Complete(f.text, pos) && budget > 0 && Read(f, parse, e, c, Some(budget)).outcome == Nothing {
        FirstLineTaken(f.text, parse, e, c, pos, budget);
      }
    } else {
      assert pos == |f.text|;
    }
  }

  /** A call that reads at all takes the first complete line. */
  lemma FirstLineTaken(s: string, parse: Parser, e: Expected, c: Cursor, pos: nat, budget: nat)
    requires c.offset <= pos <= |s| && Complete(s, pos) && budget > 0
    requires Scan(s, parse, e, c, pos, Some(budget)).outcome == Nothing
    ensures Scan(s, parse, e, c, pos, Some(budget)).cursor.offset > c.offset
  {
    var end := LineEnd(s, pos, LIMIT);
    var v := Judge(e, c, parse(s[pos..end]));
    ScanResumes(s, s, parse, e, Cursor(end, true, v.matched, v.turn), end, Some(budget - (end - pos)));
  }

  /** The calls reconcile makes one after another, each on the transcript of its time, up to the first verdict. */
  function Drive(files: seq<File>, budgets: seq<nat>, parse: Parser, e: Expected, c: Cursor): Outcome
    requires |files| == |budgets|
  {
    if files == [] then Nothing
    else
      var r := Read(files[0], parse, e, c, Some(budgets[0]));
      if r.outcome != Nothing then r.outcome else Drive(files[1..], budgets[1..], parse, e, r.cursor)
  }

  /** Any append schedule, partial lines and any budgets: the first verdict is the verdict of one full scan. */
  lemma {:induction false} AnyScheduleAgrees(files: seq<File>, budgets: seq<nat>, final: File, parse: Parser,
                                             e: Expected, c: Cursor)
    requires |files| == |budgets|
    requires forall i | 0 <= i < |files| ::
               Extends(files[i], final) && files[i].identity == e.identity && HeaderOk(files[i], e)
    requires forall i | 0 <= i < |files| :: c.offset <= |files[i].text|
    requires forall i, j | 0 <= i < j < |files| :: Extends(files[i], files[j])
    ensures Drive(files, budgets, parse, e, c) in {Nothing, Full(final, parse, e, c)}
  {
    if files != [] {
      CallAgrees(files[0], final, parse, e, c, budgets[0]);
      var r := Read(files[0], parse, e, c, Some(budgets[0]));
      if r.outcome == Nothing {
        forall i | 0 <= i < |files[1..]| ensures r.cursor.offset <= |files[1..][i].text| {
          assert Extends(files[0], files[i + 1]);
        }
        AnyScheduleAgrees(files[1..], budgets[1..], final, parse, e, r.cursor);
      }
    }
  }

  /** And the verdict is reached: once the transcript is final, every call with a budget moves on or has nothing to
      find. */
  lemma {:induction false} EnoughCallsDecide(n: nat, budgets: seq<nat>, final: File, parse: Parser, e: Expected,
                                             c: Cursor)
    requires n == |budgets| && (forall i | 0 <= i < n :: budgets[i] > 0)
    requires final.identity == e.identity && HeaderOk(final, e) && c.offset <= |final.text|
    requires n > |final.text| - c.offset
    ensures Drive(seq(n, i => final), budgets, parse, e, c) == Full(final, parse, e, c)
    decreases n
  {
    var files := seq(n, i => final);
    CallAgrees(final, final, parse, e, c, budgets[0]);
    var r := Read(final, parse, e, c, Some(budgets[0]));
    if r.outcome == Nothing {
      assert files[1..] == seq(n - 1, i => final);
      if r.cursor.offset == c.offset {
        AnyScheduleAgrees(files, budgets, final, parse, e, c);
      } else {
        EnoughCallsDecide(n - 1, budgets[1..], final, parse, e, r.cursor);
      }
    }
  }
}
