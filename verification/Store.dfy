/** store.py: one shared connection per thread, BEGIN for the outermost write block, a savepoint for each inner one,
    and a cache of the schemas known to exist. */
module Store {
  import opened Wrappers

  datatype Data = Data(kv: map<string, string>, schemas: set<string>)

  /** A statement of the protocol can fail when a block is entered (BEGIN, SAVEPOINT) or left (COMMIT, RELEASE). */
  datatype Fault = NoFault | AtEntry | AtExit

  /** What callers build out of the store: writes, exceptions, handlers, db() blocks, connection() blocks,
      ensure_schema. */
  datatype Prog =
    | Put(key: string, value: string)
    | Define(name: string)   // CREATE TABLE IF NOT EXISTS
    | Raise
    | Then(first: Prog, second: Prog)
    | Try(body: Prog)
    | Db(write: bool, fault: Fault, body: Prog)
    | Connection(body: Prog)
    | Ensure(name: string, fault: Fault)

  /** A bare write needs an open connection; every other operation opens its own. */
  predicate Scoped(p: Prog, open: bool) {
    match p
    case Put(_, _) => open
    case Define(_) => open
    case Raise => true
    case Then(a, b) => Scoped(a, open) && Scoped(b, open)
    case Try(b) => Scoped(b, open)
    case Db(_, _, b) => Scoped(b, true)
    case Connection(b) => Scoped(b, true)
    case Ensure(_, _) => true
  }

  function Size(p: Prog): nat {
    match p
    case Then(a, b) => 1 + Size(a) + Size(b)
    case Try(b) => 1 + Size(b)
    case Db(_, _, b) => 1 + Size(b)
    case Connection(b) => 1 + Size(b)
    case Ensure(_, _) => 2
    case _ => 0
  }

  datatype Outcome = Outcome(ok: bool, data: Data, cache: set<string>)

  /** The intended meaning: a write block is atomic at every depth, nothing else undoes anything. */
  function Eval(p: Prog, open: bool, nested: bool, d: Data, cache: set<string>): Outcome
    decreases p, !open
  {
    match p
    case Put(k, v) => Outcome(true, d.(kv := d.kv[k := v]), cache)
    case Define(name) => Outcome(true, d.(schemas := d.schemas + {name}), cache)
    case Raise => Outcome(false, d, cache)
    case Then(a, b) =>
      var r := Eval(a, open, nested, d, cache);
      if r.ok then Eval(b, open, nested, r.data, r.cache) else r
    case Try(b) => Eval(b, open, nested, d, cache).(ok := true)
    case Connection(b) =>
      if open then Eval(b, open, nested, d, cache) else Eval(b, true, nested, d, cache).(cache := {})
    case Db(write, fault, b) =>
      if !open then Eval(p, true, nested, d, cache).(cache := {})
      else if !write then Eval(b, open, nested, d, cache)
      else if fault == AtEntry then Outcome(false, d, cache)
      else
        var r := Eval(b, open, true, d, cache);
        if r.ok && fault == NoFault then r else Outcome(false, d, r.cache)
    case Ensure(name, fault) =>
      if name in cache then Outcome(true, d, cache)
      else if fault != NoFault then Outcome(false, d, cache)
      else Outcome(true, d.(schemas := d.schemas + {name}), if open && !nested then cache + {name} else cache)
  }

  /** The same programs told as a log: the writes that survive, in order. A failed block contributes none of its own,
      whatever its inner blocks achieved, and takes nothing from the blocks around it. */
  datatype Log = Log(ok: bool, writes: seq<Prog>, cache: set<string>)

  function Survivors(p: Prog, open: bool, nested: bool, cache: set<string>): Log
    decreases p, !open
  {
    match p
    case Put(_, _) => Log(true, [p], cache)
    case Define(_) => Log(true, [p], cache)
    case Raise => Log(false, [], cache)
    case Then(a, b) =>
      var r := Survivors(a, open, nested, cache);
      if !r.ok then r
      else var t := Survivors(b, open, nested, r.cache); t.(writes := r.writes + t.writes)
    case Try(b) => Survivors(b, open, nested, cache).(ok := true)
    case Connection(b) =>
      if open then Survivors(b, open, nested, cache) else Survivors(b, true, nested, cache).(cache := {})
    case Db(write, fault, b) =>
      if !open then Survivors(p, true, nested, cache).(cache := {})
      else if !write then Survivors(b, open, nested, cache)
      else if fault == AtEntry then Log(false, [], cache)
      else
        var r := Survivors(b, open, true, cache);
        if r.ok && fault == NoFault then r else Log(false, [], r.cache)
    case Ensure(name, fault) =>
      if name in cache then Log(true, [], cache)
      else if fault != NoFault then Log(false, [], cache)
      else Log(true, [Define(name)], if open && !nested then cache + {name} else cache)
  }

  function Redo(d: Data, writes: seq<Prog>): Data
    decreases |writes|
  {
    if writes == [] then d
    else
      match writes[0]
      case Put(k, v) => Redo(d.(kv := d.kv[k := v]), writes[1..])
      case Define(name) => Redo(d.(schemas := d.schemas + {name}), writes[1..])
      case _ => Redo(d, writes[1..])
  }

  lemma {:induction false} RedoAppend(d: Data, a: seq<Prog>, b: seq<Prog>)
    ensures Redo(d, a + b) == Redo(Redo(d, a), b)
    decreases |a|
  {
    if a == [] {
      assert a + b == b;
    } else {
      assert (a + b)[0] == a[0] && (a + b)[1..] == a[1..] + b;
      match a[0]
      case Put(k, v) => RedoAppend(d.(kv := d.kv[k := v]), a[1..], b);
      case Define(name) => RedoAppend(d.(schemas := d.schemas + {name}), a[1..], b);
      case _ => RedoAppend(d, a[1..], b);
    }
  }

  /** Undoing by snapshots and never having written are the same: the data after any program is the redo of its log. */
  lemma {:induction false} AtomicIsRedo(p: Prog, open: bool, nested: bool, d: Data, cache: set<string>)
    ensures var r, t := Eval(p, open, nested, d, cache), Survivors(p, open, nested, cache);
            r.ok == t.ok && r.cache == t.cache && r.data == Redo(d, t.writes)
    decreases p, !open
  {
    match p
    case Then(a, b) =>
      AtomicIsRedo(a, open, nested, d, cache);
      var r, t := Eval(a, open, nested, d, cache), Survivors(a, open, nested, cache);
      if r.ok {
        AtomicIsRedo(b, open, nested, r.data, r.cache);
        RedoAppend(d, t.writes, Survivors(b, open, nested, t.cache).writes);
      }
    case Try(b) => AtomicIsRedo(b, open, nested, d, cache);
    case Connection(b) => AtomicIsRedo(b, true, nested, d, cache);
    case Db(write, fault, b) =>
      if !open {
        AtomicIsRedo(p, true, nested, d, cache);
      } else if !write {
        AtomicIsRedo(b, open, nested, d, cache);
      } else if fault != AtEntry {
        AtomicIsRedo(b, open, true, d, cache);
      }
    case _ =>
  }

  /** What creating a schema in a write block of its own means. */
  function Create(name: string, fault: Fault): Prog {
    Db(true, fault, Define(name))
  }

  /** An open connection runs the block at once. */
  lemma CreateWhenOpen(name: string, fault: Fault, nested: bool, d: Data, cache: set<string>)
    ensures Eval(Create(name, fault), true, nested, d, cache) ==
            if fault != NoFault then Outcome(false, d, cache)
            else Outcome(true, d.(schemas := d.schemas + {name}), cache)
  {
    assert Eval(Define(name), true, true, d, cache) == Outcome(true, d.(schemas := d.schemas + {name}), cache);
  }

  /** A closed one is opened for it, and forgets its cache. */
  lemma CreateWhenClosed(name: string, fault: Fault, nested: bool, d: Data, cache: set<string>)
    ensures Eval(Create(name, fault), false, nested, d, cache) ==
            Eval(Create(name, fault), true, nested, d, cache).(cache := {})
  {
  }

  /** ensure_schema of an unknown schema is its creation, remembered if nothing encloses it. */
  lemma EnsureIsCreate(name: string, fault: Fault, open: bool, nested: bool, d: Data, cache: set<string>)
    requires name !in cache && (open || (!nested && cache == {}))
    ensures var r := Eval(Create(name, fault), open, nested, d, cache);
            Eval(Ensure(name, fault), open, nested, d, cache) ==
            if r.ok && open && !nested then r.(cache := cache + {name}) else r
  {
    CreateWhenOpen(name, fault, nested, d, cache);
    CreateWhenClosed(name, fault, nested, d, cache);
  }

  /** An open transaction: the data its statements see and its savepoints, innermost last. */
  datatype Transaction = Transaction(working: Data, saves: seq<(nat, Data)>)

  class Store {
    var file: Data                    // what is committed
    var shared: bool                  // a connection is open
    var tx: Option<Transaction>
    var schemas: set<string>          // the cache
    var names: nat                    // savepoint names handed out so far

    ghost predicate Valid()
      reads this
    {
      && schemas <= file.schemas
      && (!shared ==> tx == None && schemas == {})
      && schemas <= View().schemas
      && (tx.Some? ==> forall i | 0 <= i < |tx.value.saves| ::
            tx.value.saves[i].0 < names && schemas <= tx.value.saves[i].1.schemas)
    }

    /** What a SELECT on the shared connection sees. */
    function View(): Data
      reads this
    {
      if tx.Some? then tx.value.working else file
    }

    constructor (file: Data)
      ensures Valid() && this.file == file && !shared
    {
      this.file, shared, tx, schemas, names := file, false, None, {}, 0;
    }

    // ---------- the SQLite statements ----------

    method Execute(d: Data)
      modifies this
      ensures View() == d && unchanged(this`shared, this`schemas, this`names)
      ensures old(tx).Some? ==> file == old(file) && tx == Some(old(tx).value.(working := d))
      ensures old(tx).None? ==> file == d && tx == None
    {
      if tx.Some? {
        tx := Some(tx.value.(working := d));
      } else {
        file := d;
      }
    }

    method RollbackTo(name: nat, i: nat)
      requires tx.Some? && i < |tx.value.saves| && tx.value.saves[i].0 == name
      requires forall j | i < j < |tx.value.saves| :: tx.value.saves[j].0 != name
      modifies this`tx
      ensures tx == Some(Transaction(old(tx).value.saves[i].1, old(tx).value.saves[..i + 1]))
    {
      tx := Some(Transaction(tx.value.saves[i].1, tx.value.saves[..i + 1]));
    }

    method Release(name: nat, i: nat)
      requires tx.Some? && i < |tx.value.saves| && tx.value.saves[i].0 == name
      requires forall j | i < j < |tx.value.saves| :: tx.value.saves[j].0 != name
      modifies this`tx
      ensures tx == Some(old(tx).value.(saves := old(tx).value.saves[..i]))
    {
      tx := Some(tx.value.(saves := tx.value.saves[..i]));
    }

    // ---------- the context managers ----------

    /** Run a program. Its effect is the intended one, an enclosing transaction stays open with its savepoints,
        and nothing is committed before the outermost write block ends. */
    method Run(p: Prog) returns (ok: bool)
      requires Valid() && Scoped(p, shared)
      modifies this
      ensures Valid() && shared == old(shared) && names >= old(names)
      ensures var r := Eval(p, old(shared), old(tx.Some?), old(View()), old(schemas));
              ok == r.ok && View() == r.data && schemas == r.cache
      ensures tx.Some? == old(tx.Some?)
      ensures tx.Some? ==> tx.value.saves == old(tx.value.saves) && file == old(file) && schemas == old(schemas)
      decreases Size(p), !shared
    {
      match p {
        case Define(name) =>
          Execute(View().(schemas := View().schemas + {name}));
          ok := true;
        case Put(k, v) =>
          Execute(View().(kv := View().kv[k := v]));
          ok := true;
        case Raise =>
          ok := false;
        case Then(a, b) =>
          ok := Run(a);
          if ok {
            ok := Run(b);
          }
        case Try(b) =>
          var _ := Run(b);
          ok := true;
        case Connection(b) =>
          if shared {
            ok := Run(b);
          } else {
            shared := true;
            ok := Run(b);
            Close();
          }
        case Db(write, fault, b) =>
          if !shared {
            shared := true;
            ok := Run(p);
            Close();
          } else if !write {
            ok := Run(b);
          } else if tx.Some? {
            ok := RunNested(fault, b);
          } else {
            ok := RunOuter(fault, b);
          }
        case Ensure(name, fault) =>
          ok := RunEnsure(name, fault);
      }
    }

    method Close()
      requires shared && schemas <= file.schemas && tx == None
      modifies this
      ensures Valid() && !shared && schemas == {} && unchanged(this`file, this`tx, this`names)
    {
      shared, schemas := false, {};
    }

    /** db(True) with no transaction open. */
    method RunOuter(fault: Fault, b: Prog) returns (ok: bool)
      requires Valid() && shared && tx == None && Scoped(b, true)
      modifies this
      ensures Valid() && shared && tx == None && names >= old(names)
      ensures var r := Eval(Db(true, fault, b), true, false, old(file), old(schemas));
              ok == r.ok && file == r.data && schemas == r.cache
      ensures !ok ==> file == old(file)
      decreases Size(b), true, 0
    {
      if fault == AtEntry {
        return false;
      }
      tx := Some(Transaction(file, []));
      ok := Run(b);
      if ok && fault == NoFault {
        file, tx := tx.value.working, None;
      } else {
        ok, tx := false, None;
      }
    }

    /** db(True) inside a transaction: a savepoint under a fresh name. */
    method RunNested(fault: Fault, b: Prog) returns (ok: bool)
      requires Valid() && shared && tx.Some? && Scoped(b, true)
      modifies this
      ensures Valid() && shared && tx.Some? && file == old(file) && names >= old(names)
      ensures tx.value.saves == old(tx.value.saves) && schemas == old(schemas)
      ensures var r := Eval(Db(true, fault, b), true, true, old(View()), old(schemas));
              ok == r.ok && View() == r.data && schemas == r.cache
      decreases Size(b), true, 0
    {
      if fault == AtEntry {
        return false;
      }
      var name, depth := names, |tx.value.saves|;
      ghost var saves, working := tx.value.saves, tx.value.working;
      names := names + 1;
      tx := Some(tx.value.(saves := tx.value.saves + [(name, tx.value.working)]));
      ok := Run(b);
      assert tx.value.saves == saves + [(name, working)];
      assert tx.value.saves[..depth] == saves && tx.value.saves[..depth + 1][..depth] == saves;
      if ok && fault == NoFault {
        Release(name, depth);
      } else {
        RollbackTo(name, depth);
        Release(name, depth);
        ok := false;
      }
    }

    /** ensure_schema: remember a schema only when its creation was committed here and now. */
    method RunEnsure(name: string, fault: Fault) returns (ok: bool)
      requires Valid()
      modifies this
      ensures Valid() && shared == old(shared) && names >= old(names)
      ensures var r := Eval(Ensure(name, fault), old(shared), old(tx.Some?), old(View()), old(schemas));
              ok == r.ok && View() == r.data && schemas == r.cache
      ensures tx.Some? == old(tx.Some?)
      ensures tx.Some? ==> tx.value.saves == old(tx.value.saves) && file == old(file) && schemas == old(schemas)
      decreases 2, false, 0
    {
      if name in schemas {
        assert View().(schemas := View().schemas + {name}) == View();
        return true;
      }
      var already := shared && tx.Some?;
      var create := Create(name, fault);
      assert Size(create) == 1;
      EnsureIsCreate(name, fault, shared, tx.Some?, View(), schemas);
      ok := Run(create);
      if ok && shared && !already {
        schemas := schemas + {name};
      }
    }
  }
}
