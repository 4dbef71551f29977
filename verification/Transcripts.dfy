/** What a scan of a transcript answers, told from the lines of the transcript alone: the first line that decides. */
module Transcripts {
  import opened Wrappers
  import opened Receipts

  // ---------- lines ----------

  /** A line of the text from p up to q, with its newline, and not too long to be read. */
  ghost predicate IsLine(s: string, p: nat, q: nat) {
    p < q <= |s| && q - p <= MAX_LINE && s[q - 1] == '\n' && forall i | p <= i < q - 1 :: s[i] != '\n'
  }

  /** The places where successive lines begin; the last one is where they stop. */
  ghost predicate Lines(s: string, ps: seq<nat>) {
    ps != [] && (forall k | 0 <= k < |ps| :: ps[k] <= |s|) &&
    forall k | 0 <= k < |ps| - 1 :: IsLine(s, ps[k], ps[k + 1])
  }

  /** There is no newline within reach. */
  ghost predicate Unfinished(s: string, p: nat) {
    p <= |s| && forall i | p <= i < |s| && i < p + LIMIT :: s[i] != '\n'
  }

  /** The next newline is just within reach, but the line is too long. */
  ghost predicate Overlong(s: string, p: nat) {
    p + MAX_LINE < |s| && s[p + MAX_LINE] == '\n' && forall i | p <= i < p + MAX_LINE :: s[i] != '\n'
  }

  lemma {:induction false} EndsAt(s: string, p: nat, q: nat, limit: nat)
    requires p < q <= |s| && q - p <= limit && s[q - 1] == '\n' && forall i | p <= i < q - 1 :: s[i] != '\n'
    ensures LineEnd(s, p, limit) == q
    decreases limit
  {
    if q != p + 1 {
      EndsAt(s, p + 1, q, limit - 1);
    }
  }

  lemma {:induction false} EndsNowhere(s: string, p: nat, limit: nat)
    requires p <= |s| && forall i | p <= i < |s| && i < p + limit :: s[i] != '\n'
    ensures var end := LineEnd(s, p, limit); end == p || s[end - 1] != '\n'
    ensures LineEnd(s, p, limit) == if p + limit < |s| then p + limit else |s|
    decreases limit
  {
    if limit > 0 && p < |s| {
      EndsNowhere(s, p + 1, limit - 1);
    }
  }

  // ---------- what each line says ----------

  /** What line k says. */
  function Says(s: string, parse: Parser, ps: seq<nat>, k: nat): Entry
    requires k + 1 < |ps| && ps[k] <= ps[k + 1] <= |s|
  {
    parse(s[ps[k]..ps[k + 1]])
  }

  ghost predicate NamesCall(s: string, parse: Parser, e: Expected, ps: seq<nat>, k: nat) {
    k + 1 < |ps| && ps[k] <= ps[k + 1] <= |s| &&
    Says(s, parse, ps, k).FunctionCall? && Says(s, parse, ps, k).callId == e.callId
  }

  ghost predicate NamesTurn(s: string, parse: Parser, ps: seq<nat>, k: nat) {
    k + 1 < |ps| && ps[k] <= ps[k + 1] <= |s| && Says(s, parse, ps, k).TurnContext?
  }

  /** The call is on record before line k, or was before. */
  ghost predicate CallKnown(s: string, parse: Parser, e: Expected, c: Cursor, ps: seq<nat>, k: nat) {
    c.matched || exists j :: 0 <= j < k && NamesCall(s, parse, e, ps, j)
  }

  /** Line k is of this turn: the one last named before it. */
  ghost predicate InTurn(s: string, parse: Parser, c: Cursor, ps: seq<nat>, k: nat, turn: Option<string>) {
    || (turn == c.turn && forall j | 0 <= j < k :: !NamesTurn(s, parse, ps, j))
    || Named(s, parse, ps, k, turn)
  }

  /** The last of the lines before k that name a turn names this one. */
  ghost predicate Named(s: string, parse: Parser, ps: seq<nat>, k: nat, turn: Option<string>) {
    exists j :: LastNamed(s, parse, ps, k, j) && Says(s, parse, ps, j) == TurnContext(turn)
  }

  ghost predicate LastNamed(s: string, parse: Parser, ps: seq<nat>, k: nat, j: nat) {
    j < k && NamesTurn(s, parse, ps, j) && forall i | j < i < k :: !NamesTurn(s, parse, ps, i)
  }

  ghost predicate InOtherTurn(s: string, parse: Parser, e: Expected, c: Cursor, ps: seq<nat>, k: nat) {
    exists turn :: InTurn(s, parse, c, ps, k, turn) && turn.Some? && e.turn.Some? && turn != e.turn
  }

  /** What line k decides, if nothing before it does: a line that is no record is an error; so is the call with another
      kind or input, or in another turn; and an output after the call is its receipt. */
  ghost predicate Decides(s: string, parse: Parser, e: Expected, c: Cursor, ps: seq<nat>, k: nat, o: Outcome)
    requires k + 1 < |ps| && ps[k] <= ps[k + 1] <= |s|
  {
    match Says(s, parse, ps, k)
    case Malformed => o == Failed(BadRecord)
    case FunctionCall(id, kind, input) =>
      id == e.callId &&
      if kind != e.kind || input != e.input then o == Failed(InputMismatch)
      else InOtherTurn(s, parse, e, c, ps, k) && o == Failed(OtherTurn)
    case FunctionOutput(id, output) =>
      id == e.callId && CallKnown(s, parse, e, c, ps, k) && o == Receipt(output, ps[k])
    case _ => false
  }

  /** Line k decides nothing. */
  ghost predicate Passes(s: string, parse: Parser, e: Expected, c: Cursor, ps: seq<nat>, k: nat)
    requires k + 1 < |ps| && ps[k] <= ps[k + 1] <= |s|
  {
    forall o :: !Decides(s, parse, e, c, ps, k, o)
  }

  // ---------- the scan ----------

  /** The first line is judged by what it says. */
  lemma FirstJudged(s: string, parse: Parser, e: Expected, c: Cursor, ps: seq<nat>, o: Outcome)
    requires Lines(s, ps) && |ps| > 1
    ensures Decides(s, parse, e, c, ps, 0, o) <==>
              match Judge(e, c, Says(s, parse, ps, 0))
              case Bad(p) => o == Failed(p)
              case Found(output) => o == Receipt(output, ps[0])
              case More(_, _) => false
  {
    assert InTurn(s, parse, c, ps, 0, c.turn);
    assert forall turn :: InTurn(s, parse, c, ps, 0, turn) ==> turn == c.turn;
  }

  /** The cursor after a first line that decides nothing. */
  function After(s: string, parse: Parser, e: Expected, c: Cursor, ps: seq<nat>): Cursor
    requires Lines(s, ps) && |ps| > 1
  {
    var v := Judge(e, c, Says(s, parse, ps, 0));
    if v.More? then Cursor(ps[1], true, v.matched, v.turn) else c
  }

  lemma RestSays(s: string, parse: Parser, ps: seq<nat>, k: nat)
    requires Lines(s, ps) && k + 2 < |ps|
    ensures Lines(s, ps[1..]) && Says(s, parse, ps[1..], k) == Says(s, parse, ps, k + 1)
  {
    LinesRest(s, ps);
    assert ps[1..][k] == ps[k + 1] && ps[1..][k + 1] == ps[k + 2];
  }

  lemma LinesRest(s: string, ps: seq<nat>)
    requires Lines(s, ps) && |ps| > 1
    ensures Lines(s, ps[1..])
  {
    forall k | 0 <= k < |ps[1..]| - 1 ensures IsLine(s, ps[1..][k], ps[1..][k + 1]) {
      assert IsLine(s, ps[k + 1], ps[k + 2]);
    }
  }

  lemma RestNames(s: string, parse: Parser, e: Expected, ps: seq<nat>, k: nat)
    requires Lines(s, ps) && |ps| > 1
    ensures NamesCall(s, parse, e, ps[1..], k) <==> NamesCall(s, parse, e, ps, k + 1)
    ensures NamesTurn(s, parse, ps[1..], k) <==> NamesTurn(s, parse, ps, k + 1)
  {
    if k + 2 < |ps| {
      RestSays(s, parse, ps, k);
    }
  }

  lemma RestKnows(s: string, parse: Parser, e: Expected, c: Cursor, ps: seq<nat>, k: nat)
    requires Lines(s, ps) && |ps| > 1 && Judge(e, c, Says(s, parse, ps, 0)).More?
    ensures CallKnown(s, parse, e, After(s, parse, e, c, ps), ps[1..], k) <==> CallKnown(s, parse, e, c, ps, k + 1)
  {
    var d := After(s, parse, e, c, ps);
    assert d.matched <==> c.matched || NamesCall(s, parse, e, ps, 0);
    forall j: nat ensures NamesCall(s, parse, e, ps[1..], j) <==> NamesCall(s, parse, e, ps, j + 1) {
      RestNames(s, parse, e, ps, j);
    }
    if j :| 0 <= j < k + 1 && NamesCall(s, parse, e, ps, j) {
      assert j > 0 ==> NamesCall(s, parse, e, ps[1..], j - 1);
    }
    if j :| 0 <= j < k && NamesCall(s, parse, e, ps[1..], j) {
      assert NamesCall(s, parse, e, ps, j + 1);
    }
  }

  lemma RestLast(s: string, parse: Parser, e: Expected, ps: seq<nat>, k: nat, j: nat)
    requires Lines(s, ps) && |ps| > 1
    ensures LastNamed(s, parse, ps[1..], k, j) <==> LastNamed(s, parse, ps, k + 1, j + 1)
  {
    RestNames(s, parse, e, ps, j);
    forall i: nat ensures NamesTurn(s, parse, ps[1..], i) <==> NamesTurn(s, parse, ps, i + 1) {
      RestNames(s, parse, e, ps, i);
    }
    if LastNamed(s, parse, ps[1..], k, j) {
      forall i | j + 1 < i < k + 1 ensures !NamesTurn(s, parse, ps, i) {
        assert !NamesTurn(s, parse, ps[1..], i - 1);
      }
    }
  }

  /** No turn is named in the rest, and none in the first line, or that one. */
  lemma RestUnnamed(s: string, parse: Parser, e: Expected, ps: seq<nat>, k: nat)
    requires Lines(s, ps) && |ps| > 1
    ensures (forall j | 0 <= j < k + 1 :: !NamesTurn(s, parse, ps, j)) <==>
            !NamesTurn(s, parse, ps, 0) && forall j | 0 <= j < k :: !NamesTurn(s, parse, ps[1..], j)
    ensures LastNamed(s, parse, ps, k + 1, 0) <==>
            NamesTurn(s, parse, ps, 0) && forall j | 0 <= j < k :: !NamesTurn(s, parse, ps[1..], j)
  {
    forall i: nat ensures NamesTurn(s, parse, ps[1..], i) <==> NamesTurn(s, parse, ps, i + 1) {
      RestNames(s, parse, e, ps, i);
    }
    if forall j | 0 <= j < k :: !NamesTurn(s, parse, ps[1..], j) {
      forall j | 0 < j < k + 1 ensures !NamesTurn(s, parse, ps, j) {
        assert !NamesTurn(s, parse, ps[1..], j - 1);
      }
    }
  }

  lemma RestNamed(s: string, parse: Parser, e: Expected, ps: seq<nat>, k: nat, turn: Option<string>)
    requires Lines(s, ps) && |ps| > 1
    ensures Named(s, parse, ps, k + 1, turn) <==>
            Named(s, parse, ps[1..], k, turn) ||
            (LastNamed(s, parse, ps, k + 1, 0) && Says(s, parse, ps, 0) == TurnContext(turn))
  {
    if Named(s, parse, ps, k + 1, turn) {
      var j: nat :| LastNamed(s, parse, ps, k + 1, j) && Says(s, parse, ps, j) == TurnContext(turn);
      if j > 0 {
        RestLast(s, parse, e, ps, k, j - 1);
        RestSays(s, parse, ps, j - 1);
      }
    }
    if Named(s, parse, ps[1..], k, turn) {
      var j: nat :| LastNamed(s, parse, ps[1..], k, j) && Says(s, parse, ps[1..], j) == TurnContext(turn);
      RestLast(s, parse, e, ps, k, j);
      RestSays(s, parse, ps, j);
    }
  }

  lemma RestTurns(s: string, parse: Parser, e: Expected, c: Cursor, ps: seq<nat>, k: nat, turn: Option<string>)
    requires Lines(s, ps) && |ps| > 1 && Judge(e, c, Says(s, parse, ps, 0)).More?
    ensures InTurn(s, parse, After(s, parse, e, c, ps), ps[1..], k, turn) <==> InTurn(s, parse, c, ps, k + 1, turn)
  {
    RestNamed(s, parse, e, ps, k, turn);
    RestUnnamed(s, parse, e, ps, k);
  }

  lemma RestDecides(s: string, parse: Parser, e: Expected, c: Cursor, ps: seq<nat>, k: nat, o: Outcome)
    requires Lines(s, ps) && k + 2 < |ps| && Judge(e, c, Says(s, parse, ps, 0)).More?
    ensures Lines(s, ps[1..]) && ps[1..][k] <= ps[1..][k + 1]
    ensures Decides(s, parse, e, After(s, parse, e, c, ps), ps[1..], k, o) <==> Decides(s, parse, e, c, ps, k + 1, o)
  {
    RestSays(s, parse, ps, k);
    RestKnows(s, parse, e, c, ps, k);
    forall turn ensures InTurn(s, parse, After(s, parse, e, c, ps), ps[1..], k, turn) <==>
                        InTurn(s, parse, c, ps, k + 1, turn) {
      RestTurns(s, parse, e, c, ps, k, turn);
    }
  }

  // ---------- the verdict ----------

  /** The scan passes a first line that decides nothing. */
  lemma ScanSteps(s: string, parse: Parser, e: Expected, c: Cursor, ps: seq<nat>)
    requires Lines(s, ps) && |ps| > 1
    ensures var o := Scan(s, parse, e, c, ps[0], None).outcome;
            if Judge(e, c, Says(s, parse, ps, 0)).More?
            then o == Scan(s, parse, e, After(s, parse, e, c, ps), ps[1], None).outcome
            else Decides(s, parse, e, c, ps, 0, o)
  {
    assert IsLine(s, ps[0], ps[1]);
    EndsAt(s, ps[0], ps[1], LIMIT);
    FirstJudged(s, parse, e, c, ps, Scan(s, parse, e, c, ps[0], None).outcome);
  }

  /** None of the first n lines decides anything. */
  ghost predicate AllPass(s: string, parse: Parser, e: Expected, c: Cursor, ps: seq<nat>, n: nat) {
    Lines(s, ps) && n < |ps| && forall k | 0 <= k < n :: PassesAt(s, parse, e, c, ps, k)
  }

  ghost predicate PassesAt(s: string, parse: Parser, e: Expected, c: Cursor, ps: seq<nat>, k: nat) {
    Lines(s, ps) && k + 1 < |ps| && InOrder(s, ps, k) && Passes(s, parse, e, c, ps, k)
  }

  ghost predicate InOrder(s: string, ps: seq<nat>, k: nat) {
    k + 1 < |ps| && ps[k] <= ps[k + 1] <= |s|
  }

  lemma FirstPasses(s: string, parse: Parser, e: Expected, c: Cursor, ps: seq<nat>)
    requires Lines(s, ps) && |ps| > 1
    ensures PassesAt(s, parse, e, c, ps, 0) <==> Judge(e, c, Says(s, parse, ps, 0)).More?
  {
    forall o ensures Decides(s, parse, e, c, ps, 0, o) <==>
              match Judge(e, c, Says(s, parse, ps, 0))
              case Bad(p) => o == Failed(p)
              case Found(output) => o == Receipt(output, ps[0])
              case More(_, _) => false {
      FirstJudged(s, parse, e, c, ps, o);
    }
    assert IsLine(s, ps[0], ps[1]);
    var o := match Judge(e, c, Says(s, parse, ps, 0))
      case Bad(p) => Failed(p)
      case Found(output) => Receipt(output, ps[0])
      case More(_, _) => Nothing;
    assert !Judge(e, c, Says(s, parse, ps, 0)).More? ==> Decides(s, parse, e, c, ps, 0, o);
  }

  lemma RestPass(s: string, parse: Parser, e: Expected, c: Cursor, ps: seq<nat>, n: nat)
    requires n > 0 && AllPass(s, parse, e, c, ps, n)
    ensures Judge(e, c, Says(s, parse, ps, 0)).More?
    ensures AllPass(s, parse, e, After(s, parse, e, c, ps), ps[1..], n - 1)
  {
    assert PassesAt(s, parse, e, c, ps, 0);
    FirstPasses(s, parse, e, c, ps);
    LinesRest(s, ps);
    forall k | 0 <= k < n - 1 ensures PassesAt(s, parse, e, After(s, parse, e, c, ps), ps[1..], k) {
      assert PassesAt(s, parse, e, c, ps, k + 1);
      forall o ensures Decides(s, parse, e, After(s, parse, e, c, ps), ps[1..], k, o) <==>
                       Decides(s, parse, e, c, ps, k + 1, o) {
        RestDecides(s, parse, e, c, ps, k, o);
      }
    }
  }

  /** The cursor after n lines that decide nothing. */
  function AfterAll(s: string, parse: Parser, e: Expected, c: Cursor, ps: seq<nat>, n: nat): Cursor
    requires Lines(s, ps) && n < |ps|
    decreases n
  {
    if n == 0 then c
    else
      LinesRest(s, ps);
      AfterAll(s, parse, e, After(s, parse, e, c, ps), ps[1..], n - 1)
  }

  /** From there the scan answers as from the start. */
  lemma {:induction false} ScanPassesAll(s: string, parse: Parser, e: Expected, c: Cursor, ps: seq<nat>, n: nat)
    requires AllPass(s, parse, e, c, ps, n)
    ensures Scan(s, parse, e, c, ps[0], None).outcome ==
            Scan(s, parse, e, AfterAll(s, parse, e, c, ps, n), ps[n], None).outcome
    decreases n
  {
    if n > 0 {
      RestPass(s, parse, e, c, ps, n);
      ScanSteps(s, parse, e, c, ps);
      ScanPassesAll(s, parse, e, After(s, parse, e, c, ps), ps[1..], n - 1);
    }
  }

  /** The first line that decides gives the answer. */
  lemma {:induction false} FirstDecides(s: string, parse: Parser, e: Expected, c: Cursor, ps: seq<nat>, n: nat,
                                        o: Outcome)
    requires AllPass(s, parse, e, c, ps, n) && InOrder(s, ps, n) && Decides(s, parse, e, c, ps, n, o)
    ensures Scan(s, parse, e, c, ps[0], None).outcome == o
    decreases n
  {
    ScanSteps(s, parse, e, c, ps);
    if n == 0 {
      FirstJudged(s, parse, e, c, ps, o);
    } else {
      RestPass(s, parse, e, c, ps, n);
      RestDecides(s, parse, e, c, ps, n - 1, o);
      FirstDecides(s, parse, e, After(s, parse, e, c, ps), ps[1..], n - 1, o);
    }
  }

  /** If none decides, there is no answer yet, unless the next line is too long. */
  lemma NoneDecides(s: string, parse: Parser, e: Expected, c: Cursor, ps: seq<nat>)
    requires Lines(s, ps) && AllPass(s, parse, e, c, ps, |ps| - 1)
    ensures Unfinished(s, ps[|ps| - 1]) ==> Scan(s, parse, e, c, ps[0], None).outcome == Nothing
    ensures Overlong(s, ps[|ps| - 1]) ==> Scan(s, parse, e, c, ps[0], None).outcome == Failed(TooLong)
  {
    var p := ps[|ps| - 1];
    ScanPassesAll(s, parse, e, c, ps, |ps| - 1);
    if Unfinished(s, p) {
      EndsNowhere(s, p, LIMIT);
    } else if Overlong(s, p) {
      EndsAt(s, p, p + LIMIT, LIMIT);
    }
  }

  // ---------- one reading ----------

  /** The first line of the file is the header that was saved. */
  ghost predicate Headed(f: File, e: Expected) {
    e.header <= f.text && IsLine(f.text, 0, |e.header|)
  }

  lemma HeadedIsOk(f: File, e: Expected)
    ensures HeaderOk(f, e) <==> Headed(f, e)
  {
    var end := LineEnd(f.text, 0, LIMIT);
    if HeaderOk(f, e) {
      EndIsLine(f.text, 0, LIMIT);
      assert f.text[..|e.header|] == e.header;
    }
    if Headed(f, e) {
      EndsAt(f.text, 0, |e.header|, LIMIT);
    }
  }

  lemma {:induction false} EndIsLine(s: string, p: nat, limit: nat)
    requires p <= |s|
    ensures forall i | p <= i < LineEnd(s, p, limit) - 1 :: s[i] != '\n'
    decreases limit
  {
    if limit > 0 && p < |s| && s[p] != '\n' {
      EndIsLine(s, p + 1, limit - 1);
    }
  }

  /** A file that was replaced, cut off, or has another header is refused, and the cursor stays. */
  lemma OtherFileIsRefused(f: File, parse: Parser, e: Expected, c: Cursor, budget: Option<int>)
    requires f.identity != e.identity || |f.text| < c.offset || !Headed(f, e)
    ensures Read(f, parse, e, c, budget) ==
            Scanned(Failed(if f.identity != e.identity || |f.text| < c.offset then Replaced else BadHeader), c)
  {
    HeadedIsOk(f, e);
  }

  /** The lines to read: from the cursor if it is at a line boundary, else after the fragment it stands in. */
  ghost predicate FromCursor(f: File, c: Cursor, ps: seq<nat>) {
    && Lines(f.text, ps)
    && if c.atBoundary then ps[0] == c.offset
       else c.offset < ps[0] <= c.offset + LIMIT && ps[0] <= |f.text| && f.text[ps[0] - 1] == '\n' &&
            forall i | c.offset <= i < ps[0] - 1 :: f.text[i] != '\n'
  }

  /** A full reading of the right file answers what the first of these lines decides. */
  lemma ReadingDecides(f: File, parse: Parser, e: Expected, c: Cursor, ps: seq<nat>, n: nat, o: Outcome)
    requires f.identity == e.identity && c.offset <= |f.text| && Headed(f, e) && FromCursor(f, c, ps)
    requires AllPass(f.text, parse, e, c, ps, n) && InOrder(f.text, ps, n) && Decides(f.text, parse, e, c, ps, n, o)
    ensures Full(f, parse, e, c) == o
  {
    HeadedIsOk(f, e);
    StartsAt(f, c, ps);
    FirstDecides(f.text, parse, e, c, ps, n, o);
  }

  lemma StartsAt(f: File, c: Cursor, ps: seq<nat>)
    requires c.offset <= |f.text| && FromCursor(f, c, ps)
    ensures Start(f.text, c) == ps[0]
  {
    if !c.atBoundary {
      EndsAt(f.text, c.offset, ps[0], LIMIT);
    }
  }

  /** If none of them does, it answers nothing yet, or that the next line is too long. */
  lemma ReadingGoesOn(f: File, parse: Parser, e: Expected, c: Cursor, ps: seq<nat>)
    requires f.identity == e.identity && c.offset <= |f.text| && Headed(f, e) && FromCursor(f, c, ps)
    requires AllPass(f.text, parse, e, c, ps, |ps| - 1)
    ensures Unfinished(f.text, ps[|ps| - 1]) ==> Full(f, parse, e, c) == Nothing
    ensures Overlong(f.text, ps[|ps| - 1]) ==> Full(f, parse, e, c) == Failed(TooLong)
  {
    HeadedIsOk(f, e);
    StartsAt(f, c, ps);
    NoneDecides(f.text, parse, e, c, ps);
  }

  /** A call recorded in its own turn, with the expected kind and input, and followed by its output yields exactly that
      output as its receipt, whatever else is recorded around them, by bounded readings as by a full one. */
  lemma RecordedCallIsReceived(budgets: seq<nat>, f: File, parse: Parser, e: Expected, c: Cursor, ps: seq<nat>,
                               n: nat, output: string)
    requires f.identity == e.identity && c.offset <= |f.text| && Headed(f, e) && FromCursor(f, c, ps)
    requires AllPass(f.text, parse, e, c, ps, n) && CallKnown(f.text, parse, e, c, ps, n)
    requires InOrder(f.text, ps, n) && Says(f.text, parse, ps, n) == FunctionOutput(e.callId, output)
    requires |budgets| > |f.text| - c.offset && forall i | 0 <= i < |budgets| :: budgets[i] > 0
    ensures Drive(seq(|budgets|, i => f), budgets, parse, e, c) == Receipt(output, ps[n])
  {
    ReadingDecides(f, parse, e, c, ps, n, Receipt(output, ps[n]));
    HeadedIsOk(f, e);
    EnoughCallsDecide(|budgets|, budgets, f, parse, e, c);
  }

  /** The first reading of a call starts with the line after the header, if it was saved there, or else after the
      fragment it stands in; with nothing on record and no turn known. */
  lemma FirstReading(f: File, parse: Parser, e: Expected, offset: nat, ps: seq<nat>, n: nat, o: Outcome)
    requires f.identity == e.identity && offset <= |f.text| && Headed(f, e)
    requires var c := Cursor(offset, offset == |e.header|, false, None);
             && FromCursor(f, c, ps) && AllPass(f.text, parse, e, c, ps, n) && InOrder(f.text, ps, n)
             && Decides(f.text, parse, e, c, ps, n, o)
    ensures Full(f, parse, e, Fresh(e, offset)) == o
  {
    ReadingDecides(f, parse, e, Fresh(e, offset), ps, n, o);
  }

  /** A reading that fails leaves the saved cursor as it was; one that finds the output leaves it after that line. */
  lemma CursorAfterReading(f: File, parse: Parser, e: Expected, c: Cursor, budget: Option<int>)
    ensures var r := Read(f, parse, e, c, budget);
            && (r.outcome.Failed? ==> r.cursor == c)
            && (r.outcome.Receipt? ==>
                  r.outcome.start < r.cursor.offset <= |f.text| && r.cursor.atBoundary && r.cursor.matched &&
                  f.text[r.cursor.offset - 1] == '\n')
  {
    if |f.text| >= c.offset {
      CursorAfterScan(f.text, parse, e, c, Start(f.text, c), budget);
    }
  }

  lemma {:induction false} CursorAfterScan(s: string, parse: Parser, e: Expected, c: Cursor, pos: nat,
                                           budget: Option<int>)
    requires pos <= |s|
    ensures var r := Scan(s, parse, e, c, pos, budget);
            r.outcome.Receipt? ==>
              r.outcome.start < r.cursor.offset <= |s| && r.cursor.atBoundary && r.cursor.matched &&
              s[r.cursor.offset - 1] == '\n'
    decreases |s| - pos
  {
    if !Spent(budget) && Complete(s, pos) && |Line(s, pos)| <= MAX_LINE {
      var v, end := Judge(e, c, parse(Line(s, pos))), LineEnd(s, pos, LIMIT);
      if v.More? {
        CursorAfterScan(s, parse, e, Cursor(end, true, v.matched, v.turn), end, Left(budget, end - pos));
      }
    }
  }
}
