/** Path identities: the string comparison of coordination.py and the part lists that the
    output trie of research.py walks. */
module Paths {

  type Path = string
  type Parts = seq<string>

  /** Python's value.rstrip('/'). */
  function RStrip(s: Path): Path {
    if s != "" && s[|s| - 1] == '/' then RStrip(s[..|s| - 1]) else s
  }

  /** Two declared scopes touch: one is the root, or they are equal, or one lies below the other. */
  predicate Overlaps(a: Path, b: Path) {
    a == "." || b == "." || a == b || RStrip(b) + "/" <= a || RStrip(a) + "/" <= b
  }

  /** Python's value.split('/'). */
  function Split(s: Path): (ps: Parts)
    ensures ps != []
  {
    if s == "" then [""] else Extend(s[0], Split(s[1..]))
  }

  function Extend(c: char, rest: Parts): (ps: Parts)
    requires rest != []
    ensures ps != []
  {
    if c == '/' then [""] + rest else [[c] + rest[0]] + rest[1..]
  }

  function Join(ps: Parts): Path
    requires ps != []
  {
    if |ps| == 1 then ps[0] else ps[0] + "/" + Join(ps[1..])
  }

  /** One part list is the other or an ancestor of it. */
  predicate Nested(p: Parts, q: Parts) {
    p <= q || q <= p
  }

  /** What a normalised path below the workspace root always satisfies. */
  predicate Normal(s: Path) {
    s != "." && (s == "" || s[|s| - 1] != '/')
  }

  lemma {:induction false} JoinSplit(s: Path)
    ensures Join(Split(s)) == s
  {
    if s == "" {
    } else {
      JoinSplit(s[1..]);
      var rest := Split(s[1..]);
      if s[0] == '/' {
        assert ([""] + rest)[1..] == rest;
        assert "" + "/" + Join(rest) == s;
      } else {
        var ps := [[s[0]] + rest[0]] + rest[1..];
        assert ps[1..] == rest[1..];
        assert Join(ps) == [s[0]] + Join(rest);
      }
    }
  }

  lemma {:induction false} JoinAppend(p: Parts, q: Parts)
    requires p != [] && q != []
    ensures Join(p + q) == Join(p) + "/" + Join(q)
  {
    if |p| == 1 {
      assert (p + q)[1..] == q;
    } else {
      JoinAppend(p[1..], q);
      assert (p + q)[1..] == p[1..] + q;
      assert p[0] + "/" + (Join(p[1..]) + "/" + Join(q)) == p[0] + "/" + Join(p[1..]) + "/" + Join(q);
    }
  }

  lemma {:induction false} SplitAppend(b: Path, c: Path)
    ensures Split(b + "/" + c) == Split(b) + Split(c)
  {
    if b == "" {
      assert (b + "/" + c)[1..] == c;
    } else {
      SplitAppend(b[1..], c);
      assert (b + "/" + c)[1..] == b[1..] + "/" + c;
      ExtendAppend(b[0], Split(b[1..]), Split(c));
    }
  }

  lemma ExtendAppend(c: char, rest: Parts, tail: Parts)
    requires rest != []
    ensures Extend(c, rest + tail) == Extend(c, rest) + tail
  {
    assert (rest + tail)[1..] == rest[1..] + tail;
  }

  /** Below(b, a) on strings is "proper prefix" on part lists. */
  lemma BelowIsPrefix(a: Path, b: Path)
    ensures b + "/" <= a <==> Split(b) < Split(a)
  {
    if b + "/" <= a {
      var c := a[|b| + 1..];
      assert a == b + "/" + c;
      SplitAppend(b, c);
    }
    if Split(b) < Split(a) {
      var rest := Split(a)[|Split(b)|..];
      assert Split(a) == Split(b) + rest;
      JoinAppend(Split(b), rest);
      JoinSplit(a);
      JoinSplit(b);
    }
  }

  /** The trie's notion of conflict and the pairwise string test agree on normalised non-root paths. */
  lemma OverlapsIsNested(a: Path, b: Path)
    requires Normal(a) && Normal(b)
    ensures Overlaps(a, b) <==> Nested(Split(a), Split(b))
  {
    assert RStrip(a) == a && RStrip(b) == b;
    BelowIsPrefix(a, b);
    BelowIsPrefix(b, a);
    SplitInjective(a, b);
    ProperOrEqual(Split(a), Split(b));
    ProperOrEqual(Split(b), Split(a));
  }

  lemma ProperOrEqual(p: Parts, q: Parts)
    ensures p <= q <==> p < q || p == q
  {
  }

  lemma SplitInjective(a: Path, b: Path)
    ensures Split(a) == Split(b) ==> a == b
  {
    JoinSplit(a);
    JoinSplit(b);
  }

  /** The root itself, or a normalised path below it, which never begins with the part ".". */
  predicate Clean(s: Path) {
    s == "." || (Normal(s) && Split(s)[0] != ".")
  }

  lemma SplitDot()
    ensures Split(".") == ["."]
  {
    assert "."[1..] == "" && Split("") == [""];
    assert "." + "" == ".";
  }

  /** ... and only there: the two tests disagree exactly on the root and a path below it, because the root overlaps
      everything but is one more part to the trie. */
  lemma OnlyTheRootDiffers(a: Path, b: Path)
    requires Clean(a) && Clean(b)
    ensures (Overlaps(a, b) <==> Nested(Split(a), Split(b))) <==> (a == "." <==> b == ".")
  {
    SplitDot();
    if a != "." && b != "." {
      OverlapsIsNested(a, b);
    }
  }

  lemma OverlapsSymmetric(a: Path, b: Path)
    ensures Overlaps(a, b) == Overlaps(b, a)
  {
  }
}
