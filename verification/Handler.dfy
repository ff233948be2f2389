/** The dashboard handler: one card per listed monitor, from either store. */
module Handler {
  import opened Monitoring
  import opened StateMachine
  import opened MemoryStore
  import opened RowStore
  import opened Dashboard
  import opened Refinement
  import Replay

  method HandleFromMemory(store: Memory, machine: Machine) returns (cards: seq<Health>)
    requires store.Valid()
    ensures var contents, track := store.contents, machine.track;
            cards == Cards(store.monitors[..], name => HistoryOf(contents, name), name => Lookup(track, name).state)
    ensures |cards| == store.monitors.Length
    ensures forall i :: 0 <= i < |cards| ==>
      IsCard(cards[i], store.monitors[i], HistoryOf(store.contents, store.monitors[i].name),
             Lookup(machine.track, store.monitors[i].name).state)
  {
    hide HealthOf, HistoryOf, Lookup, Memory.ValidOutside, IsCard;
    var ms := store.List();
    cards := [];
    for i := 0 to ms.Length
      invariant |cards| == i && ms[..] == store.monitors[..]
      invariant forall k :: 0 <= k < i ==>
        cards[k] == HealthOf(ms[k], HistoryOf(store.contents, ms[k].name), Lookup(machine.track, ms[k].name).state)
      invariant forall k :: 0 <= k < i ==>
        IsCard(cards[k], ms[k], HistoryOf(store.contents, ms[k].name), Lookup(machine.track, ms[k].name).state)
    {
      var hist := store.History(ms[i].name);
      var state := machine.CurrentState(ms[i].name);
      var card := BuildHealth(ms[i], hist[..], state);
      cards := cards + [card];
    }
  }

  method HandleFromRows(store: SQLite, machine: Machine) returns (cards: seq<Health>, ms: seq<Monitor>)
    requires store.Valid()
    ensures IsListing(store.table, ms)
    ensures var rows, track := store.rows, machine.track;
            cards == Cards(ms, name => RowHistory(rows, name), name => Lookup(track, name).state)
    ensures |cards| == |ms|
    ensures forall i :: 0 <= i < |cards| ==>
      IsCard(cards[i], ms[i], RowHistory(store.rows, ms[i].name), Lookup(machine.track, ms[i].name).state)
  {
    hide HealthOf, RowHistory, Lookup, SQLite.Valid, IsCard;
    ms := store.List();
    cards := [];
    for i := 0 to |ms|
      invariant |cards| == i
      invariant forall k :: 0 <= k < i ==>
        cards[k] == HealthOf(ms[k], RowHistory(store.rows, ms[k].name), Lookup(machine.track, ms[k].name).state)
      invariant forall k :: 0 <= k < i ==>
        IsCard(cards[k], ms[k], RowHistory(store.rows, ms[k].name), Lookup(machine.track, ms[k].name).state)
    {
      var hist := store.History(ms[i].name);
      var state := machine.CurrentState(ms[i].name);
      var card := BuildHealth(ms[i], hist, state);
      cards := cards + [card];
    }
  }

  /** Two new stores that are put through the same writes show a client the cards of what was
      written, and the same cards exactly when, for every listed monitor, their histories agree. */
  method AnswersAfter(ops: seq<Op>, machine: Machine) returns (fromMemory: seq<Health>, fromRows: seq<Health>)
    requires Chronological(ops) && DistinctLists(ops) && ProbedOnly(ops)
    ensures var track := machine.track;
            && fromMemory == Cards(MemRun(ops).monitors, name => HistoryOf(MemRun(ops).histories, name),
                                   name => Lookup(track, name).state)
            && fromRows == Cards(MemRun(ops).monitors, name => RowHistory(RowRun(ops).rows, name),
                                 name => Lookup(track, name).state)
    ensures fromMemory == fromRows <==> forall m :: m in MemRun(ops).monitors ==> HistoriesAgree(ops, m.name)
    ensures (forall m :: m in MemRun(ops).monitors ==> NoSplits(ops, m.name)) ==> fromMemory == fromRows
  {
    hide Chronological, DistinctLists, ProbedOnly, HistoriesAgree, NoSplits, Memory.Valid, SQLite.Valid, IsListing;
    var store, db := Replay.Replay(ops);
    fromMemory := HandleFromMemory(store, machine);
    ghost var ms;
    fromRows, ms := HandleFromRows(db, machine);
    ghost var track := machine.track;
    SameList(ops, ms);
    SameDashboardExactly(ops, ms, name => Lookup(track, name).state);
    if forall m :: m in ms ==> NoSplits(ops, m.name) {
      forall m | m in ms ensures HistoriesAgree(ops, m.name) {
        NoSplitsAgree(ops, m.name);
      }
    }
  }
}
