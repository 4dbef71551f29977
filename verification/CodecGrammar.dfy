/** Which commands the parser of transport.py accepts: exactly the lists of quoted and plain words. */
module CodecGrammar {
  import opened Wrappers
  import opened Codec

  /** A word of a command and what it says. */
  datatype Word = InQuotes(text: string) | Plain(text: string)

  /** A plain word has at least one character, all of them letters, digits or one of _ . / : - */
  ghost predicate WordOk(w: Word) {
    w.Plain? ==> w.text != "" && forall i | 0 <= i < |w.text| :: PlainChar(w.text[i])
  }

  ghost predicate PlainChar(c: char) {
    65 <= c as int <= 90 || 97 <= c as int <= 122 || 45 <= c as int <= 58 || c == '_'
  }

  /** A quoted word stands between quotes, with its own quotes doubled; a plain one for itself. */
  function Written(w: Word): string {
    match w
    case InQuotes(text) => Quote(text)
    case Plain(text) => text
  }

  function WrittenAll(ws: seq<Word>): seq<string> {
    seq(|ws|, i requires 0 <= i < |ws| => Written(ws[i]))
  }

  function Said(ws: seq<Word>): Argv {
    seq(|ws|, i requires 0 <= i < |ws| => ws[i].text)
  }

  ghost predicate AllOk(ws: seq<Word>) {
    forall i | 0 <= i < |ws| :: WordOk(ws[i])
  }

  lemma PlainIsBare(c: char)
    ensures PlainChar(c) <==> Bare(c)
  {
    var rest := "_./:-";
    assert rest[0] == '_' && rest[1] == '.' && rest[2] == '/' && rest[3] == ':' && rest[4] == '-';
  }

  // ---------- what is written is read ----------

  lemma {:induction false} BareRun(s: string, j: nat, e: nat)
    requires j <= e <= |s| && (forall i | j <= i < e :: Bare(s[i])) && (e == |s| || !Bare(s[e]))
    ensures BareEnd(s, j) == e
    decreases e - j
  {
    if j < e {
      BareRun(s, j + 1, e);
    }
  }

  /** From i on the text goes on with this word, and then ends or has a space. */
  ghost predicate Follows(s: string, i: nat, t: string, rest: string) {
    i <= |s| && s[i..] == t + rest && (rest == "" || rest[0] == ' ')
  }

  /** The word at i is matched, and the rest is left. */
  ghost predicate Matched(s: string, i: nat, t: string, rest: string) {
    var e := i + |t|;
    i < e <= |s| && s[i..e] == t && s[e..] == rest && MatchAt(s, i, true) == Some(e)
  }

  lemma PlainMatch(s: string, i: nat, text: string, rest: string)
    requires WordOk(Plain(text)) && Follows(s, i, text, rest)
    ensures Matched(s, i, text, rest)
  {
    Drop(s, i, text, rest);
    var e := i + |text|;
    forall k | i <= k < e ensures Bare(s[k]) && s[k] != '\'' {
      assert s[k] == s[i..e][k - i] == text[k - i];
      PlainIsBare(s[k]);
    }
    if e < |s| {
      assert s[e] == s[e..][0] == ' ';
      PlainIsBare(s[e]);
    }
    BareRun(s, i + 1, e);
  }

  lemma QuotedMatch(s: string, i: nat, text: string, rest: string)
    requires Follows(s, i, Quote(text), rest)
    ensures Matched(s, i, Quote(text), rest)
  {
    FirstMatch(s, i, text, rest, true);
  }

  lemma WordMatch(s: string, i: nat, w: Word, rest: string)
    requires WordOk(w) && Follows(s, i, Written(w), rest)
    ensures Matched(s, i, Written(w), rest)
  {
    match w
    case InQuotes(text) => QuotedMatch(s, i, text, rest);
    case Plain(text) => PlainMatch(s, i, text, rest);
  }

  /** The first word is the first token, and the space after it starts none. */
  lemma WordThenRest(s: string, i: nat, w: Word, rest: string)
    requires WordOk(w) && i <= |s| && s[i..] == Written(w) + (" " + rest)
    ensures var e := i + |Written(w)| + 1;
            e <= |s| && s[e..] == rest && Tokens(s, i, true) == [Written(w)] + Tokens(s, e, true)
  {
    var e := i + |Written(w)|;
    WordMatch(s, i, w, " " + rest);
    assert s[e] == s[e..][0] == ' ';
    assert s[e + 1..] == s[e..][1..] == rest;
    SpaceStartsNothing(s, e, true);
  }

  lemma LastWord(s: string, i: nat, w: Word)
    requires WordOk(w) && i <= |s| && s[i..] == Written(w)
    ensures Tokens(s, i, true) == [Written(w)]
  {
    assert s[i..] == Written(w) + "";
    WordMatch(s, i, w, "");
    var e := i + |Written(w)|;
    assert |s[e..]| == 0;
    assert Tokens(s, e, true) == [];
  }

  lemma WrittenFirst(ws: seq<Word>)
    requires ws != []
    ensures WrittenAll(ws) == [Written(ws[0])] + WrittenAll(ws[1..])
  {
  }

  lemma JoinedFirst(ws: seq<Word>)
    requires |ws| > 1
    ensures JoinSpace(WrittenAll(ws)) == Written(ws[0]) + (" " + JoinSpace(WrittenAll(ws[1..])))
  {
    WrittenFirst(ws);
    assert WrittenAll(ws)[1..] == WrittenAll(ws[1..]);
    assert Written(ws[0]) + " " + JoinSpace(WrittenAll(ws[1..])) ==
           Written(ws[0]) + (" " + JoinSpace(WrittenAll(ws[1..])));
  }

  /** From i on the text is these words, with a space between any two. */
  ghost predicate Reads(s: string, i: nat, ws: seq<Word>) {
    i <= |s| && s[i..] == JoinSpace(WrittenAll(ws))
  }

  lemma OneWord(s: string, i: nat, ws: seq<Word>)
    requires |ws| == 1 && WordOk(ws[0]) && Reads(s, i, ws)
    ensures Tokens(s, i, true) == WrittenAll(ws)
  {
    assert WrittenAll(ws) == [Written(ws[0])];
    LastWord(s, i, ws[0]);
  }

  lemma {:induction false} TokensOfWords(s: string, i: nat, ws: seq<Word>)
    requires ws != [] && AllOk(ws) && Reads(s, i, ws)
    ensures Tokens(s, i, true) == WrittenAll(ws)
    decreases |ws|
  {
    if |ws| == 1 {
      OneWord(s, i, ws);
    } else {
      var rest := JoinSpace(WrittenAll(ws[1..]));
      JoinedFirst(ws);
      RestFollows(s, i, Written(ws[0]), rest);
      TokensOfWords(s, i + |Written(ws[0])| + 1, ws[1..]);
      WordsStep(s, i, ws, rest);
    }
  }

  lemma WordsStep(s: string, i: nat, ws: seq<Word>, rest: string)
    requires ws != [] && WordOk(ws[0]) && i <= |s| && s[i..] == Written(ws[0]) + (" " + rest)
    requires var e := i + |Written(ws[0])| + 1; e <= |s| && Tokens(s, e, true) == WrittenAll(ws[1..])
    ensures Tokens(s, i, true) == WrittenAll(ws)
  {
    WordThenRest(s, i, ws[0], rest);
    WrittenFirst(ws);
  }

  lemma SaidIsDecoded(ws: seq<Word>)
    requires AllOk(ws)
    ensures DecodeAll(WrittenAll(ws)) == Said(ws)
  {
    forall i | 0 <= i < |ws| ensures Decode(Written(ws[i])) == ws[i].text {
      match ws[i]
      case InQuotes(text) => DecodeQuote(text);
      case Plain(text) => PlainIsBare(text[0]);
    }
  }

  // ---------- what is read was written ----------

  /** The match of a quoted word ends at a quote, and the quotes before it come in pairs. */
  lemma {:induction false} QuotesArePaired(s: string, j: nat)
    requires j <= |s| && CloseQuote(s, j).Some?
    ensures var e := CloseQuote(s, j).value;
            s[e - 1] == '\'' && Double(Undouble(s[j..e - 1])) == s[j..e - 1]
    decreases |s| - j
  {
    var e := CloseQuote(s, j).value;
    var u := s[j..e - 1];
    if s[j] != '\'' {
      QuotesArePaired(s, j + 1);
      assert u == [s[j]] + s[j + 1..e - 1];
      assert u[1..] == s[j + 1..e - 1];
      OtherFirst(s[j], s[j + 1..e - 1]);
    } else if j + 1 < |s| && s[j + 1] == '\'' && CloseQuote(s, j + 2).Some? {
      QuotesArePaired(s, j + 2);
      assert u == "''" + s[j + 2..e - 1];
      PairFirst(s[j + 2..e - 1]);
    }
  }

  lemma OtherFirst(c: char, u: string)
    requires c != '\'' && Double(Undouble(u)) == u
    ensures Double(Undouble([c] + u)) == [c] + u
  {
    assert ([c] + u)[1..] == u;
    assert Undouble([c] + u) == [c] + Undouble(u);
    assert ([c] + Undouble(u))[1..] == Undouble(u);
  }

  lemma PairFirst(u: string)
    requires Double(Undouble(u)) == u
    ensures Double(Undouble("''" + u)) == "''" + u
  {
    assert ("''" + u)[2..] == u;
    assert Undouble("''" + u) == "'" + Undouble(u);
    assert ("'" + Undouble(u))[1..] == Undouble(u);
  }

  lemma {:induction false} BareEndIsBare(s: string, j: nat)
    requires j <= |s|
    ensures forall i | j <= i < BareEnd(s, j) :: Bare(s[i])
    decreases |s| - j
  {
    if j < |s| && Bare(s[j]) {
      BareEndIsBare(s, j + 1);
    }
  }

  /** The word a token is. */
  function WordOf(t: string): Word {
    if t != "" && t[0] == '\'' && |t| >= 2 then InQuotes(Undouble(t[1..|t| - 1])) else Plain(t)
  }

  ghost predicate IsWord(t: string) {
    WordOk(WordOf(t)) && Written(WordOf(t)) == t && Decode(t) == WordOf(t).text
  }

  lemma QuotedIsWord(t: string)
    requires |t| >= 2 && t[0] == '\'' == t[|t| - 1] && Double(Undouble(t[1..|t| - 1])) == t[1..|t| - 1]
    ensures IsWord(t)
  {
    assert t == "'" + t[1..|t| - 1] + "'";
  }

  lemma PlainIsWord(t: string)
    requires t != "" && forall k | 0 <= k < |t| :: Bare(t[k])
    ensures IsWord(t)
  {
    forall k | 0 <= k < |t| ensures PlainChar(t[k]) {
      PlainIsBare(t[k]);
    }
  }

  lemma MatchIsWord(s: string, i: nat)
    requires i < |s| && MatchAt(s, i, true).Some?
    ensures IsWord(s[i..MatchAt(s, i, true).value])
  {
    var e := MatchAt(s, i, true).value;
    var t := s[i..e];
    assert t[0] == s[i];
    if s[i] == '\'' {
      QuotesArePaired(s, i + 1);
      assert t[1..|t| - 1] == s[i + 1..e - 1];
      QuotedIsWord(t);
    } else {
      BareEndIsBare(s, i + 1);
      PlainIsWord(t);
    }
  }

  lemma {:induction false} TokensAreWords(s: string, i: nat)
    requires i <= |s|
    ensures forall k | 0 <= k < |Tokens(s, i, true)| :: IsWord(Tokens(s, i, true)[k])
    decreases |s| - i
  {
    if i < |s| {
      match MatchAt(s, i, true)
      case None => TokensAreWords(s, i + 1);
      case Some(e) =>
        MatchIsWord(s, i);
        TokensAreWords(s, e);
    }
  }

  /** The command is this list of words. */
  ghost predicate Lists(command: string, ws: seq<Word>) {
    ws != [] && AllOk(ws) && command == MARK + JoinSpace(WrittenAll(ws))
  }

  lemma ListedIsAccepted(command: string, ws: seq<Word>)
    requires Lists(command, ws) && NUL !in command
    ensures LiteralArgv(command) == Some(Said(ws))
  {
    var body := JoinSpace(WrittenAll(ws));
    assert command[2..] == body;
    assert body[0..] == body && Reads(body, 0, ws);
    TokensOfWords(body, 0, ws);
    SaidIsDecoded(ws);
  }

  lemma AcceptedIsListed(command: string)
    requires LiteralArgv(command).Some?
    ensures exists ws :: Lists(command, ws) && LiteralArgv(command) == Some(Said(ws))
  {
    var body := command[2..];
    var tokens := Tokens(body, 0, true);
    TokensAreWords(body, 0);
    var ws := seq(|tokens|, i requires 0 <= i < |tokens| => WordOf(tokens[i]));
    forall i | 0 <= i < |tokens|
      ensures WordOk(ws[i]) && WrittenAll(ws)[i] == tokens[i] && Said(ws)[i] == Decode(tokens[i])
    {
      assert IsWord(tokens[i]);
    }
    assert WrittenAll(ws) == tokens && Said(ws) == DecodeAll(tokens);
    assert command == MARK + body;
  }

  /** The parser accepts exactly the lists of words without NUL, and returns what their words say. */
  lemma AcceptedIsExact(command: string, argv: Argv)
    ensures LiteralArgv(command) == Some(argv) <==>
            NUL !in command && exists ws :: Lists(command, ws) && argv == Said(ws)
  {
    if LiteralArgv(command) == Some(argv) {
      AcceptedIsListed(command);
    }
    if NUL !in command && exists ws :: Lists(command, ws) && argv == Said(ws) {
      var ws :| Lists(command, ws) && argv == Said(ws);
      ListedIsAccepted(command, ws);
    }
  }

  // ---------- the legacy script ----------

  lemma QuotedBack(t: string)
    requires |t| >= 2 && t[0] == '\'' == t[|t| - 1] && Double(Undouble(t[1..|t| - 1])) == t[1..|t| - 1]
    ensures Quote(Decode(t)) == t
  {
    assert t == "'" + t[1..|t| - 1] + "'";
  }

  lemma QuotedTokens(s: string, i: nat)
    requires i < |s| && MatchAt(s, i, false).Some?
    ensures var t := s[i..MatchAt(s, i, false).value]; Quote(Decode(t)) == t
  {
    var e := MatchAt(s, i, false).value;
    var t := s[i..e];
    QuotesArePaired(s, i + 1);
    assert t[1..|t| - 1] == s[i + 1..e - 1];
    QuotedBack(t);
  }

  lemma {:induction false} AllQuoted(s: string, i: nat)
    requires i <= |s|
    ensures forall k | 0 <= k < |Tokens(s, i, false)| :: Quote(Decode(Tokens(s, i, false)[k])) == Tokens(s, i, false)[k]
    decreases |s| - i
  {
    if i < |s| {
      match MatchAt(s, i, false)
      case None => AllQuoted(s, i + 1);
      case Some(e) =>
        QuotedTokens(s, i);
        AllQuoted(s, e);
    }
  }

  lemma LegacyIsWrapped(argv: Argv)
    ensures LegacyScript(argv) == LEGACY_PREFIX + JoinSpace(Quoted(argv)) + LEGACY_SUFFIX
  {
    var n := |LEGACY_PREFIX| - 2;
    assert LEGACY_PREFIX[n] == '&' && LEGACY_PREFIX[n + 1] == ' ';
    assert LEGACY_PREFIX[n..] == MARK;
    assert LEGACY_PREFIX == LEGACY_PREFIX[..n] + LEGACY_PREFIX[n..];
    assert LEGACY_PREFIX[..n] + (MARK + JoinSpace(Quoted(argv))) + LEGACY_SUFFIX ==
           (LEGACY_PREFIX[..n] + MARK) + JoinSpace(Quoted(argv)) + LEGACY_SUFFIX;
  }

  lemma LegacyTokensArePrinted(script: string)
    requires LegacyTokens(script).Some?
    ensures script == LegacyScript(LegacyTokens(script).value)
  {
    var body := script[|LEGACY_PREFIX|..|script| - |LEGACY_SUFFIX|];
    var tokens := Tokens(body, 0, false);
    AllQuoted(body, 0);
    assert Quoted(DecodeAll(tokens)) == tokens;
    assert script == LEGACY_PREFIX + body + LEGACY_SUFFIX;
    LegacyIsWrapped(DecodeAll(tokens));
  }

  /** The legacy parser returns a vector exactly for the script the installer wraps around it, if that is not too long.
      */
  lemma LegacyIsExact(script: string, argv: Argv)
    ensures LegacyArgv(script) == Some(argv) <==> script == LegacyScript(argv) && EncodedLength(script) <= 65536
  {
    if LegacyTokens(script).Some? {
      LegacyTokensArePrinted(script);
    }
    LegacyRoundTrip(argv);
  }

  /** The code units of a text in UTF-16: two for a character beyond the basic plane. */
  function Utf16(s: string): seq<int> {
    if s == "" then []
    else
      var c := s[0] as int;
      (if c < 0x10000 then [c] else [0xD800 + (c - 0x10000) / 0x400, 0xDC00 + (c - 0x10000) % 0x400]) + Utf16(s[1..])
  }

  lemma {:induction false} UnitsAreCounted(s: string)
    ensures |Utf16(s)| == Units(s)
    decreases |s|
  {
    if s != "" {
      UnitsAreCounted(s[1..]);
    }
  }

  /** Its length counts two bytes a unit, and four characters for every three bytes begun. */
  lemma EncodedLengthIsExact(script: string, groups: nat)
    requires 3 * groups - 3 < 2 * |Utf16(script)| <= 3 * groups
    ensures EncodedLength(script) == |LEGACY_MARKER| + 4 * groups
  {
    UnitsAreCounted(script);
  }
}
