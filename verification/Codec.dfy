/** The quoted one-line command that carries an argument vector through PowerShell:
    transport.py prints and parses it, install.py reuses the same quoting body. */
module Codec {
  import opened Wrappers

  type Argv = seq<string>

  const NUL: char := 0 as char
  const MARK: string := "& "
  const LEGACY_PREFIX: string := "$ErrorActionPreference='Stop'; & "
  const LEGACY_SUFFIX: string := "; exit $LASTEXITCODE"

  // ---------- printing ----------

  /** x.replace("'", "''") */
  function Double(x: string): string {
    if x == "" then "" else (if x[0] == '\'' then "''" else [x[0]]) + Double(x[1..])
  }

  function Quote(x: string): string {
    "'" + Double(x) + "'"
  }

  /** ' '.join(ts) */
  function JoinSpace(ts: seq<string>): string {
    if ts == [] then "" else if |ts| == 1 then ts[0] else ts[0] + " " + JoinSpace(ts[1..])
  }

  function Quoted(argv: Argv): seq<string> {
    seq(|argv|, i requires 0 <= i < |argv| => Quote(argv[i]))
  }

  /** transport.helper_command(argv, windows=True) and install.powershell_argv(argv). */
  function HelperCommand(argv: Argv): string {
    MARK + JoinSpace(Quoted(argv))
  }

  // ---------- parsing ----------

  /** Where the regular expression (?:[^']|'')*' ends when it is started at s[j]: the two
      alternatives exclude each other, so the only choice left is how early to stop, tried longest first. */
  function CloseQuote(s: string, j: nat): (e: Option<nat>)
    requires j <= |s|
    ensures e.Some? ==> j < e.value <= |s|
    decreases |s| - j
  {
    if j == |s| then None
    else if s[j] != '\'' then CloseQuote(s, j + 1)
    else if j + 1 < |s| && s[j + 1] == '\'' then
      var longer := CloseQuote(s, j + 2);
      if longer.Some? then longer else Some(j + 1)
    else Some(j + 1)
  }

  /** [A-Za-z0-9_./:-] */
  predicate Bare(c: char) {
    'A' <= c <= 'Z' || 'a' <= c <= 'z' || '0' <= c <= '9' || c in "_./:-"
  }

  function BareEnd(s: string, j: nat): (e: nat)
    requires j <= |s|
    ensures j <= e <= |s|
    decreases |s| - j
  {
    if j < |s| && Bare(s[j]) then BareEnd(s, j + 1) else j
  }

  /** One attempt of re.findall at s[i]; bare says whether unquoted words are tokens too. */
  function MatchAt(s: string, i: nat, bare: bool): (e: Option<nat>)
    requires i < |s|
    ensures e.Some? ==> i < e.value <= |s|
  {
    if s[i] == '\'' then CloseQuote(s, i + 1)
    else if bare && Bare(s[i]) then Some(BareEnd(s, i + 1))
    else None
  }

  /** re.findall from s[i]: characters that start no token are skipped. */
  function Tokens(s: string, i: nat, bare: bool): seq<string>
    requires i <= |s|
    decreases |s| - i
  {
    if i == |s| then []
    else match MatchAt(s, i, bare)
      case None => Tokens(s, i + 1, bare)
      case Some(e) => [s[i..e]] + Tokens(s, e, bare)
  }

  /** x.replace("''", "'") */
  function Undouble(x: string): string {
    if x == "" then ""
    else if 2 <= |x| && x[0] == '\'' && x[1] == '\'' then "'" + Undouble(x[2..])
    else [x[0]] + Undouble(x[1..])
  }

  /** t[1:-1] with quotes halved for a quoted token, else the token itself. */
  function Decode(t: string): string {
    if t != "" && t[0] == '\'' then (if |t| < 2 then "" else Undouble(t[1..|t| - 1])) else t
  }

  function DecodeAll(ts: seq<string>): Argv {
    seq(|ts|, i requires 0 <= i < |ts| => Decode(ts[i]))
  }

  /** The branch of transport.literal_argv for commands that start with "& ". */
  function LiteralArgv(command: string): Option<Argv> {
    if command == "" || NUL in command || !(MARK <= command) then None
    else
      var body := command[2..];
      var tokens := Tokens(body, 0, true);
      if tokens == [] || JoinSpace(tokens) != body then None else Some(DecodeAll(tokens))
  }

  const LEGACY_MARKER: string := "powershell.exe -NoLogo -NoProfile -NonInteractive -EncodedCommand "
  const MAX_COMMAND: nat := 65536

  /** UTF-16 code units. */
  function Units(s: string): nat {
    if s == "" then 0 else (if s[0] as int > 0xFFFF then 2 else 1) + Units(s[1..])
  }

  /** Length of the command: the marker, then base64 of the script's UTF-16 bytes. */
  function EncodedLength(script: string): nat {
    |LEGACY_MARKER| + 4 * ((2 * Units(script) + 2) / 3)
  }

  /** install.legacy_argv on the decoded script, but for the length of the command that carried it. */
  function LegacyTokens(script: string): Option<Argv> {
    if !(LEGACY_PREFIX <= script) || !EndsWith(script, LEGACY_SUFFIX) || |script| < |LEGACY_PREFIX| + |LEGACY_SUFFIX|
    then None
    else
      var body := script[|LEGACY_PREFIX|..|script| - |LEGACY_SUFFIX|];
      var tokens := Tokens(body, 0, false);
      if JoinSpace(tokens) != body then None else Some(DecodeAll(tokens))
  }

  /** install.legacy_argv: a command that is too long is not looked at. */
  function LegacyArgv(script: string): Option<Argv> {
    if EncodedLength(script) > MAX_COMMAND then None else LegacyTokens(script)
  }

  /** The script that the installer wrapped around a vector. */
  function LegacyScript(argv: Argv): string {
    LEGACY_PREFIX[..|LEGACY_PREFIX| - 2] + HelperCommand(argv) + LEGACY_SUFFIX
  }

  predicate EndsWith(s: string, t: string) {
    |t| <= |s| && s[|s| - |t|..] == t
  }

  // ---------- the round trip ----------

  lemma {:induction false} UndoubleDouble(x: string)
    ensures Undouble(Double(x)) == x
  {
    if x != "" {
      UndoubleDouble(x[1..]);
      assert x == [x[0]] + x[1..];
      if x[0] == '\'' {
        assert Double(x)[2..] == Double(x[1..]);
      } else {
        assert Double(x)[1..] == Double(x[1..]);
      }
    }
  }

  lemma DecodeQuote(x: string)
    ensures Decode(Quote(x)) == x
  {
    var t := Quote(x);
    assert t[1..|t| - 1] == Double(x);
    UndoubleDouble(x);
  }

  /** Inside a quoted token every quote is doubled, so the match ends exactly at the closing quote. */
  lemma {:induction false} CloseQuoteAt(s: string, j: nat, x: string, e: nat)
    requires j <= e < |s| && s[j..e] == Double(x) && s[e] == '\''
    requires e + 1 == |s| || s[e + 1] != '\''
    ensures CloseQuote(s, j) == Some(e + 1)
    decreases |x|
  {
    if x != "" {
      if x[0] == '\'' {
        assert Double(x)[0] == Double(x)[1] == '\'';
        assert s[j] == s[j..e][0] && s[j + 1] == s[j..e][1];
        assert s[j + 2..e] == Double(x)[2..] == Double(x[1..]);
        CloseQuoteAt(s, j + 2, x[1..], e);
      } else {
        assert s[j] == s[j..e][0];
        assert s[j + 1..e] == Double(x)[1..] == Double(x[1..]);
        CloseQuoteAt(s, j + 1, x[1..], e);
      }
    }
  }

  lemma SpaceStartsNothing(s: string, e: nat, bare: bool)
    requires e < |s| && s[e] == ' '
    ensures Tokens(s, e, bare) == Tokens(s, e + 1, bare)
  {
  }

  lemma FirstMatch(s: string, i: nat, x: string, rest: string, bare: bool)
    requires i <= |s| && s[i..] == Quote(x) + rest && (rest == "" || rest[0] == ' ')
    ensures var e := i + |Quote(x)|;
            i < e <= |s| && s[i..e] == Quote(x) && s[e..] == rest && MatchAt(s, i, bare) == Some(e)
  {
    Drop(s, i, Quote(x), rest);
    FirstToken(s, i, x, bare);
  }

  /** A quoted token at the front is the first one found; the space after it starts none. */
  lemma TokenThenSpace(s: string, i: nat, x: string, rest: string, bare: bool)
    requires i <= |s| && s[i..] == Quote(x) + (" " + rest)
    ensures var e := i + |Quote(x)| + 1;
            e <= |s| && s[e..] == rest && Tokens(s, i, bare) == [Quote(x)] + Tokens(s, e, bare)
  {
    var e := i + |Quote(x)|;
    FirstMatch(s, i, x, " " + rest, bare);
    assert s[e] == s[e..][0] == ' ';
    assert s[e + 1..] == s[e..][1..] == rest;
    SpaceStartsNothing(s, e, bare);
  }

  lemma TokenAtEnd(s: string, i: nat, x: string, bare: bool)
    requires i <= |s| && s[i..] == Quote(x)
    ensures Tokens(s, i, bare) == [Quote(x)]
  {
    assert s[i..] == Quote(x) + "";
    FirstMatch(s, i, x, "", bare);
    var e := i + |Quote(x)|;
    assert |s[e..]| == 0;
    assert Tokens(s, e, bare) == [];
  }

  lemma QuotedStep(argv: Argv)
    requires argv != []
    ensures Quoted(argv) == [Quote(argv[0])] + Quoted(argv[1..])
  {
  }

  /** The printed body of several arguments: the first, a space, the others. */
  lemma PrintedStep(argv: Argv)
    requires |argv| > 1
    ensures JoinSpace(Quoted(argv)) == Quote(argv[0]) + (" " + JoinSpace(Quoted(argv[1..])))
  {
    QuotedStep(argv);
    assert Quoted(argv)[1..] == Quoted(argv[1..]);
    assert Quote(argv[0]) + " " + JoinSpace(Quoted(argv[1..])) == Quote(argv[0]) + (" " + JoinSpace(Quoted(argv[1..])));
  }

  lemma TokensOfOne(s: string, i: nat, argv: Argv, bare: bool)
    requires |argv| <= 1 && i <= |s| && s[i..] == JoinSpace(Quoted(argv))
    ensures Tokens(s, i, bare) == Quoted(argv)
  {
    if argv == [] {
      assert |s[i..]| == 0;
    } else {
      assert Quoted(argv) == [Quote(argv[0])];
      TokenAtEnd(s, i, argv[0], bare);
    }
  }

  lemma PrintedSplits(s: string, i: nat, argv: Argv)
    requires |argv| > 1 && i <= |s| && s[i..] == JoinSpace(Quoted(argv))
    ensures s[i..] == Quote(argv[0]) + (" " + JoinSpace(Quoted(argv[1..])))
  {
    PrintedStep(argv);
  }

  lemma RestFollows(s: string, i: nat, q: string, rest: string)
    requires i <= |s| && s[i..] == q + (" " + rest)
    ensures i + |q| + 1 <= |s| && s[i + |q| + 1..] == rest
  {
    assert s[i + |q| + 1..] == s[i..][|q| + 1..];
  }

  /** The tokens of the other arguments follow the first one. */
  lemma TokensStep(s: string, i: nat, argv: Argv, rest: string, bare: bool)
    requires argv != [] && i <= |s| && s[i..] == Quote(argv[0]) + (" " + rest)
    requires var e := i + |Quote(argv[0])| + 1; e <= |s| && Tokens(s, e, bare) == Quoted(argv[1..])
    ensures Tokens(s, i, bare) == Quoted(argv)
  {
    TokenThenSpace(s, i, argv[0], rest, bare);
    QuotedStep(argv);
  }

  /** Scanning a printed body gives back the printed tokens. */
  lemma {:induction false} TokensOfPrinted(s: string, i: nat, argv: Argv, bare: bool)
    requires i <= |s| && s[i..] == JoinSpace(Quoted(argv))
    ensures Tokens(s, i, bare) == Quoted(argv)
    decreases |argv|
  {
    if |argv| <= 1 {
      TokensOfOne(s, i, argv, bare);
    } else {
      var rest := JoinSpace(Quoted(argv[1..]));
      PrintedSplits(s, i, argv);
      RestFollows(s, i, Quote(argv[0]), rest);
      TokensOfPrinted(s, i + |Quote(argv[0])| + 1, argv[1..], bare);
      TokensStep(s, i, argv, rest, bare);
    }
  }

  lemma Drop(s: string, i: nat, q: string, r: string)
    requires i <= |s| && s[i..] == q + r
    ensures i + |q| <= |s| && s[i..i + |q|] == q && s[i + |q|..] == r
    ensures r != "" ==> s[i + |q|] == r[0]
  {
    assert s[i + |q|..] == s[i..][|q|..];
    assert s[i..i + |q|] == s[i..][..|q|];
  }

  lemma FirstToken(s: string, i: nat, x: string, bare: bool)
    requires i < |s| && Quote(x) <= s[i..]
    requires var e := i + |Quote(x)|; e == |s| || s[e] != '\''
    ensures MatchAt(s, i, bare) == Some(i + |Quote(x)|)
    ensures s[i..i + |Quote(x)|] == Quote(x)
  {
    var q := Quote(x);
    var e := i + |q|;
    assert s[i..e] == q;
    assert s[i] == q[0] == '\'' && s[e - 1] == q[|q| - 1] == '\'';
    assert s[i + 1..e - 1] == q[1..|q| - 1] == Double(x);
    CloseQuoteAt(s, i + 1, x, e - 1);
  }

  lemma DecodeQuoted(argv: Argv)
    ensures DecodeAll(Quoted(argv)) == argv
  {
    forall i | 0 <= i < |argv| ensures Decode(Quoted(argv)[i]) == argv[i] {
      DecodeQuote(argv[i]);
    }
  }

  predicate NulFree(argv: Argv) {
    forall i | 0 <= i < |argv| :: NUL !in argv[i]
  }

  lemma {:induction false} DoubleKeepsNul(x: string)
    ensures NUL in Double(x) <==> NUL in x
  {
    if x != "" {
      DoubleKeepsNul(x[1..]);
      assert x == [x[0]] + x[1..];
    }
  }

  lemma {:induction false} PrintedNul(argv: Argv)
    ensures NUL in JoinSpace(Quoted(argv)) <==> !NulFree(argv)
    decreases |argv|
  {
    if argv != [] {
      DoubleKeepsNul(argv[0]);
      PrintedNul(argv[1..]);
      assert Quoted(argv)[1..] == Quoted(argv[1..]);
      assert forall i | 1 <= i < |argv| :: argv[i] == argv[1..][i - 1];
      assert NulFree(argv) <==> NUL !in argv[0] && NulFree(argv[1..]);
      if |argv| > 1 {
        assert JoinSpace(Quoted(argv)) == Quote(argv[0]) + " " + JoinSpace(Quoted(argv[1..]));
      }
    }
  }

  /** The parser returns the printed vector for exactly the nonempty NUL-free vectors, and refuses the rest. */
  lemma HelperCommandRoundTrip(argv: Argv)
    ensures LiteralArgv(HelperCommand(argv)) == if argv != [] && NulFree(argv) then Some(argv) else None
  {
    var command := HelperCommand(argv);
    var body := JoinSpace(Quoted(argv));
    assert command[2..] == body;
    PrintedNul(argv);
    assert NUL in command <==> NUL in body;
    TokensOfPrinted(body, 0, argv, true);
    DecodeQuoted(argv);
  }

  lemma LegacyTokensOfScript(argv: Argv)
    ensures LegacyTokens(LegacyScript(argv)) == Some(argv)
  {
    var body := JoinSpace(Quoted(argv));
    var script := LegacyScript(argv);
    assert script == LEGACY_PREFIX + body + LEGACY_SUFFIX;
    assert script[|LEGACY_PREFIX|..|script| - |LEGACY_SUFFIX|] == body;
    TokensOfPrinted(body, 0, argv, false);
    DecodeQuoted(argv);
  }

  /** The generated legacy command gives back its vector, whatever the vector is, exactly as long as it is not too
      long. */
  lemma LegacyRoundTrip(argv: Argv)
    ensures LegacyArgv(LegacyScript(argv)) == Some(argv) <==> EncodedLength(LegacyScript(argv)) <= MAX_COMMAND
    ensures LegacyArgv(LegacyScript(argv)) in {None, Some(argv)}
  {
    LegacyTokensOfScript(argv);
  }

  /** Two vectors never share one printed command. */
  lemma HelperCommandInjective(a: Argv, b: Argv)
    requires HelperCommand(a) == HelperCommand(b)
    ensures a == b
  {
    LegacyTokensOfScript(a);
    LegacyTokensOfScript(b);
  }

  /** Whatever the parser accepts, bare words included, it re-prints and re-parses to itself. */
  lemma AcceptedIsStable(command: string)
    requires LiteralArgv(command).Some?
    ensures LiteralArgv(HelperCommand(LiteralArgv(command).value)) == LiteralArgv(command)
  {
    var body := command[2..];
    var tokens := Tokens(body, 0, true);
    forall i | 0 <= i < |tokens| ensures NUL !in Decode(tokens[i]) {
      JoinedNul(tokens, i);
      if tokens[i] != "" && tokens[i][0] == '\'' && 2 <= |tokens[i]| {
        UndoubleNul(tokens[i][1..|tokens[i]| - 1]);
      }
    }
    HelperCommandRoundTrip(DecodeAll(tokens));
  }

  lemma {:induction false} JoinedNul(ts: seq<string>, i: nat)
    requires i < |ts| && NUL !in JoinSpace(ts)
    ensures NUL !in ts[i]
  {
    if i > 0 {
      JoinedNul(ts[1..], i - 1);
    }
  }

  lemma {:induction false} UndoubleNul(x: string)
    requires NUL !in x
    ensures NUL !in Undouble(x)
    decreases |x|
  {
    if x == "" {
    } else if 2 <= |x| && x[0] == '\'' && x[1] == '\'' {
      UndoubleNul(x[2..]);
    } else {
      UndoubleNul(x[1..]);
    }
  }
}
