/** The workspace as a map from paths to contents, and what a fingerprint of declared scopes records of it. */
module Files {
  import opened Wrappers
  import opened Paths

  /** Every regular file; a directory is there when a file is at or below it. */
  type Files = map<Path, string>

  /** Contents of the files in scope, and the declared paths at which there is nothing. */
  type Snapshot = map<Path, Option<string>>

  /** paths.covers on normalised paths: o is the root, p itself, or a directory above p. */
  predicate Covers(o: Path, p: Path) {
    o == "." || o == p || RStrip(o) + "/" <= p
  }

  predicate Within(scopes: set<Path>, p: Path) {
    exists o :: o in scopes && Covers(o, p)
  }

  /** paths.uncovered is empty. */
  predicate AllWithin(scopes: set<Path>, targets: set<Path>) {
    forall p | p in targets :: Within(scopes, p)
  }

  /** Something exists at the path: a file, or a directory with files. */
  predicate Present(fs: Files, p: Path) {
    exists f :: f in fs && Covers(p, f)
  }

  /** crew.fingerprint: declared directories are walked, absent declared paths are recorded as absent. */
  function Fingerprint(fs: Files, scopes: set<Path>): Snapshot {
    (map f | f in fs && Within(scopes, f) :: Some(fs[f])) + (map p | p in scopes && !Present(fs, p) :: None)
  }

  lemma FingerprintAt(fs: Files, scopes: set<Path>, f: Path)
    ensures f in fs && Within(scopes, f) ==> f in Fingerprint(fs, scopes) && Fingerprint(fs, scopes)[f] == Some(fs[f])
    ensures f in Fingerprint(fs, scopes) && Fingerprint(fs, scopes)[f].Some? ==>
              f in fs && Within(scopes, f) && Fingerprint(fs, scopes)[f] == Some(fs[f])
  {
    if f in fs {
      assert Covers(f, f);
    }
  }

  /** The two workspaces have the same files, with the same contents, at and below the scopes. */
  ghost predicate SameIn(fs: Files, gs: Files, scopes: set<Path>) {
    forall f | Within(scopes, f) :: (f in fs <==> f in gs) && (f in fs && f in gs ==> fs[f] == gs[f])
  }

  /** A fingerprint is exact: it is equal for two workspaces if and only if no file in scope was added, removed or
      changed. */
  lemma FingerprintIsExact(fs: Files, gs: Files, scopes: set<Path>)
    ensures Fingerprint(fs, scopes) == Fingerprint(gs, scopes) <==> SameIn(fs, gs, scopes)
  {
    if Fingerprint(fs, scopes) == Fingerprint(gs, scopes) {
      EqualIsSame(fs, gs, scopes);
    }
    if SameIn(fs, gs, scopes) {
      SameIsEqual(fs, gs, scopes);
    }
  }

  lemma EqualIsSame(fs: Files, gs: Files, scopes: set<Path>)
    requires Fingerprint(fs, scopes) == Fingerprint(gs, scopes)
    ensures SameIn(fs, gs, scopes)
  {
    forall f | Within(scopes, f) ensures (f in fs <==> f in gs) && (f in fs && f in gs ==> fs[f] == gs[f]) {
      FingerprintAt(fs, scopes, f);
      FingerprintAt(gs, scopes, f);
    }
  }

  lemma SameIsEqual(fs: Files, gs: Files, scopes: set<Path>)
    requires SameIn(fs, gs, scopes)
    ensures Fingerprint(fs, scopes) == Fingerprint(gs, scopes)
  {
    forall p | p in scopes ensures Present(fs, p) <==> Present(gs, p) {
      SamePresence(fs, gs, scopes, p);
    }
    assert (map f | f in fs && Within(scopes, f) :: Some(fs[f])) == map f | f in gs && Within(scopes, f) :: Some(gs[f]);
    assert (set p | p in scopes && !Present(fs, p)) == set p | p in scopes && !Present(gs, p);
  }

  lemma SamePresence(fs: Files, gs: Files, scopes: set<Path>, p: Path)
    requires SameIn(fs, gs, scopes) && p in scopes
    ensures Present(fs, p) <==> Present(gs, p)
  {
    forall f | Covers(p, f) ensures f in fs <==> f in gs {
      assert Within(scopes, f);
    }
  }

  /** On normalised paths below the root, to cover is to be the path or an ancestor of it; the root covers everything.
      */
  lemma CoversIsPrefix(o: Path, p: Path)
    ensures Covers(".", p)
    ensures Normal(o) && Normal(p) ==> (Covers(o, p) <==> Split(o) <= Split(p))
  {
    if Normal(o) && Normal(p) {
      assert RStrip(o) == o;
      BelowIsPrefix(p, o);
      SplitInjective(o, p);
      ProperOrEqual(Split(o), Split(p));
    }
  }
}
