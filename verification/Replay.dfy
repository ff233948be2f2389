/** Sequences of writes performed on the store objects. */
module Replay {
  import opened Monitoring
  import opened MemoryStore
  import opened RowStore
  import opened Refinement

  ghost function Contents(store: Memory): Mem
    reads store, store.monitors
  {
    Mem(store.monitors[..], store.contents)
  }

  ghost function Tables(db: SQLite): Rows
    reads db
  {
    Rows(db.table, db.rows, db.nextId)
  }

  method WriteMemory(store: Memory, op: Op)
    requires store.Valid()
    modifies store, store.backing
    ensures store.Valid() && fresh(store.backing - old(store.backing))
    ensures Contents(store) == MemAfter(old(Contents(store)), op)
  {
    hide Saved, Synced, Pruned, Memory.ValidOutside;
    match op
    case Save(r) => store.Save(r);
    case Sync(ms) =>
      var list := new Monitor[|ms|](i requires 0 <= i < |ms| => ms[i]);
      assert list[..] == ms;
      store.Sync(list);
    case Prune(t) => store.Prune(t);
  }

  method WriteRows(db: SQLite, op: Op)
    requires db.Valid()
    modifies db
    ensures db.Valid()
    ensures Tables(db) == RowsAfter(old(Tables(db)), op)
  {
    match op
    case Save(r) => db.Save(r);
    case Sync(ms) => db.Sync(ms);
    case Prune(t) => db.Prune(t);
  }

  /** The same writes on a new store of either kind lead to the states the refinement is about. */
  method Replay(ops: seq<Op>) returns (store: Memory, db: SQLite)
    ensures fresh(store) && fresh(store.backing) && store.Valid() && Contents(store) == MemRun(ops)
    ensures fresh(db) && db.Valid() && Tables(db) == RowRun(ops)
  {
    hide Memory.Valid, SQLite.Valid, MemAfter, RowsAfter;
    var none := new Monitor[0];
    store := new Memory(none);
    db := new SQLite();
    for i := 0 to |ops|
      invariant fresh(store) && fresh(store.backing) && store.Valid() && Contents(store) == MemRun(ops[..i])
      invariant fresh(db) && db.Valid() && Tables(db) == RowRun(ops[..i])
    {
      assert ops[..i + 1][..i] == ops[..i];
      WriteMemory(store, ops[i]);
      WriteRows(db, ops[i]);
    }
    assert ops[..|ops|] == ops;
  }

  /** The memory store after a sequence of writes. */
  ghost function MemFrom(m: Mem, ops: seq<Op>): Mem {
    if ops == [] then m else MemAfter(MemFrom(m, ops[..|ops| - 1]), ops[|ops| - 1])
  }

  /** A history handed out earlier is disturbed by no later writes, although saving and pruning
      overwrite the backing arrays. */
  method SnapshotSurvivesWrites(store: Memory, name: string, ops: seq<Op>) returns (snapshot: array<Result>)
    requires store.Valid()
    modifies store, store.backing
    ensures store.Valid() && Contents(store) == MemFrom(old(Contents(store)), ops)
    ensures fresh(snapshot) && snapshot[..] == HistoryOf(old(store.contents), name)
  {
    hide Memory.Valid, MemAfter;
    snapshot := store.History(name);
    ghost var first := store.backing;
    for i := 0 to |ops|
      invariant store.Valid() && snapshot !in store.backing && fresh(store.backing - first)
      invariant Contents(store) == MemFrom(old(Contents(store)), ops[..i])
      invariant snapshot[..] == HistoryOf(old(store.contents), name)
    {
      assert ops[..i + 1][..i] == ops[..i];
      WriteMemory(store, ops[i]);
    }
    assert ops[..|ops|] == ops;
  }
}
