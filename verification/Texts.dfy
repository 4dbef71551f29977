/** The form of texts: team.text, str.strip and the length of a JSON document as util.canonical writes it. */
module Texts {

  /** What str.strip() takes for white space. */
  predicate Blank(c: char) {
    var n := c as int;
    9 <= n <= 13 || 28 <= n <= 32 || 0x2000 <= n <= 0x200A ||
    n in {0x85, 0xA0, 0x1680, 0x2028, 0x2029, 0x202F, 0x205F, 0x3000}
  }

  /** Python's value.strip() */
  function Strip(x: string): string {
    if x != "" && Blank(x[0]) then Strip(x[1..])
    else if x != "" && Blank(x[|x| - 1]) then Strip(x[..|x| - 1])
    else x
  }

  /** What team.text lets through, as it returns it: stripped, not empty, without NUL, within its limit. */
  predicate TextOk(x: string, limit: nat) {
    x != "" && !Blank(x[0]) && !Blank(x[|x| - 1]) && |x| <= limit && '\0' !in x
  }

  predicate TextsOk(xs: seq<string>, limit: nat) {
    forall i | 0 <= i < |xs| :: TextOk(xs[i], limit)
  }

  /** Such texts are what strip() leaves alone. */
  lemma TextIsStripped(x: string, limit: nat)
    requires TextOk(x, limit)
    ensures Strip(x) == x
  {
  }

  /** A text is let through if and only if it is as strip() leaves it, not empty, within its limit and without NUL. */
  lemma TextIsExact(x: string, limit: nat)
    ensures TextOk(x, limit) <==> Strip(x) == x && 0 < |x| <= limit && forall i | 0 <= i < |x| :: x[i] as int != 0
  {
    StripShortens(x);
    forall i | 0 <= i < |x| && x[i] as int == 0 ensures '\0' in x {
      assert x[i] == '\0';
    }
  }

  lemma {:induction false} StripShortens(x: string)
    ensures |Strip(x)| <= |x|
    ensures x != "" && (Blank(x[0]) || Blank(x[|x| - 1])) ==> |Strip(x)| < |x|
    decreases |x|
  {
    if x != "" && Blank(x[0]) {
      StripShortens(x[1..]);
    } else if x != "" && Blank(x[|x| - 1]) {
      StripShortens(x[..|x| - 1]);
    }
  }

  // ---------- JSON without ASCII escapes ----------

  /** Quotes, backslashes and five controls take two characters, other controls six. */
  function EscapeSize(c: char): (n: nat)
    ensures 1 <= n <= 6
  {
    var k := c as int;
    if c == '"' || c == '\\' || k in {8, 9, 10, 12, 13} then 2 else if k < 0x20 then 6 else 1
  }

  function EscapedSize(x: string): nat {
    if x == "" then 0 else EscapeSize(x[0]) + EscapedSize(x[1..])
  }

  /** A string in its quotes. */
  function QuotedSize(x: string): nat {
    2 + EscapedSize(x)
  }

  /** The strings of a list, each with the comma before or the bracket after it. */
  function ItemsSize(xs: seq<string>): nat {
    if xs == [] then 0 else QuotedSize(xs[0]) + 1 + ItemsSize(xs[1..])
  }

  /** A list of strings: brackets, and a comma between any two. */
  function ListSize(xs: seq<string>): nat {
    if xs == [] then 2 else 1 + ItemsSize(xs)
  }

  /** The characters of all the texts of a list. */
  function Letters(xs: seq<string>): nat {
    if xs == [] then 0 else |xs[0]| + Letters(xs[1..])
  }

  lemma {:induction false} QuotedHolds(x: string)
    ensures |x| + 2 <= QuotedSize(x) <= 6 * |x| + 2
    decreases |x|
  {
    if x != "" {
      QuotedHolds(x[1..]);
    }
  }

  lemma {:induction false} ListHolds(xs: seq<string>)
    ensures Letters(xs) + 3 * |xs| <= ItemsSize(xs) && Letters(xs) + 2 <= ListSize(xs)
    decreases |xs|
  {
    if xs != [] {
      QuotedHolds(xs[0]);
      ListHolds(xs[1..]);
    }
  }
}
