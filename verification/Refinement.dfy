/** The two stores, run side by side over any sequence of writes. */
module Refinement {
  import opened Monitoring
  import opened Sequences
  import opened StateMachine
  import opened MemoryStore
  import opened Codec
  import opened RowStore
  import opened Dashboard

  /** A write to a store. */
  datatype Op = Save(result: Result) | Sync(list: seq<Monitor>) | Prune(cutoff: Time)

  /** The memory store: its list and its windows, changed as the methods of `Memory` promise. */
  datatype Mem = Mem(monitors: seq<Monitor>, histories: Histories)

  /** The row store, changed as the methods of `SQLite` promise. */
  datatype Rows = Rows(table: MonitorTable, rows: seq<Row>, nextId: nat)

  function MemAfter(m: Mem, op: Op): Mem {
    match op
    case Save(r) => m.(histories := Saved(m.histories, r))
    case Sync(ms) => Mem(ms, Synced(m.histories, ms))
    case Prune(t) => m.(histories := Pruned(m.histories, t))
  }

  function RowsAfter(s: Rows, op: Op): Rows {
    match op
    case Save(r) => s.(rows := s.rows + [Encode(s.nextId, r)], nextId := s.nextId + 1)
    case Sync(ms) => s.(table := Upserts(ms), rows := Filter(s.rows, RowListed(Names(ms))))
    case Prune(t) => s.(rows := Filter(s.rows, RowNotBefore(t)))
  }

  function MemRun(ops: seq<Op>): Mem {
    if ops == [] then Mem([], map[]) else MemAfter(MemRun(ops[..|ops| - 1]), ops[|ops| - 1])
  }

  function RowRun(ops: seq<Op>): Rows {
    if ops == [] then Rows(map[], [], 1) else RowsAfter(RowRun(ops[..|ops| - 1]), ops[|ops| - 1])
  }

  // ---------- what the environment supplies ----------

  /** Results of one monitor are saved in the order of their timestamps. */
  ghost predicate Chronological(ops: seq<Op>) {
    forall i, j :: 0 <= i < j < |ops| && ops[i].Save? && ops[j].Save?
      && ops[i].result.monitorName == ops[j].result.monitorName
      ==> ops[i].result.checkedAt <= ops[j].result.checkedAt
  }

  ghost predicate DistinctLists(ops: seq<Op>) {
    forall i :: 0 <= i < |ops| && ops[i].Sync? ==> DistinctNames(ops[i].list)
  }

  // ---------- the results behind the rows ----------

  function Listed(names: set<string>): Result -> bool {
    (r: Result) => r.monitorName in names
  }

  function SecondNotBefore(cutoff: Time): Result -> bool {
    (r: Result) => Unix(r.checkedAt) >= Unix(cutoff)
  }

  /** The original results whose rows are still in the table. */
  ghost function Ledger(ops: seq<Op>): seq<Result> {
    if ops == [] then []
    else
      var l := Ledger(ops[..|ops| - 1]);
      match ops[|ops| - 1]
      case Save(r) => l + [r]
      case Sync(ms) => Filter(l, Listed(Names(ms)))
      case Prune(t) => Filter(l, SecondNotBefore(t))
  }

  ghost function Own(ops: seq<Op>, name: string): seq<Result> {
    Filter(Ledger(ops), Named(name))
  }

  ghost predicate Encodes(rows: seq<Row>, rs: seq<Result>) {
    |rows| == |rs| && forall i :: 0 <= i < |rows| ==> rows[i] == Encode(rows[i].id, rs[i])
  }

  lemma {:induction false} FilterEncodes(rows: seq<Row>, rs: seq<Result>, p: Row -> bool, q: Result -> bool)
    requires Encodes(rows, rs)
    requires forall id, r :: p(Encode(id, r)) == q(r)
    ensures Encodes(Filter(rows, p), Filter(rs, q))
  {
    if rows != [] {
      var n := |rows| - 1;
      FilterEncodes(rows[..n], rs[..n], p, q);
      assert p(rows[n]) == q(rs[n]);
    }
  }

  lemma {:induction false} LedgerBehindRows(ops: seq<Op>)
    ensures Encodes(RowRun(ops).rows, Ledger(ops))
  {
    if ops != [] {
      var before := ops[..|ops| - 1];
      LedgerBehindRows(before);
      match ops[|ops| - 1]
      case Save(r) =>
      case Sync(ms) => FilterEncodes(RowRun(before).rows, Ledger(before), RowListed(Names(ms)), Listed(Names(ms)));
      case Prune(t) => FilterEncodes(RowRun(before).rows, Ledger(before), RowNotBefore(t), SecondNotBefore(t));
    }
  }

  /** `History` of the row store, in terms of the original results. */
  lemma RowHistoryIsStored(ops: seq<Op>, name: string)
    ensures RowHistory(RowRun(ops).rows, name) == Map(Stored, LastN(Own(ops, name), HISTORY_LIMIT))
  {
    var rows, rs := RowRun(ops).rows, Ledger(ops);
    LedgerBehindRows(ops);
    FilterEncodes(rows, rs, RowNamed(name), Named(name));
    var own := Own(ops, name);
    FilterMembers(rs, Named(name));
    assert Encodes(LastN(Filter(rows, RowNamed(name)), HISTORY_LIMIT), LastN(own, HISTORY_LIMIT));
    forall i | 0 <= i < |LastN(own, HISTORY_LIMIT)| ensures LastN(own, HISTORY_LIMIT)[i] in own {
    }
  }

  lemma {:induction false} FilterMembers<T>(s: seq<T>, p: T -> bool)
    ensures forall x :: x in Filter(s, p) <==> x in s && p(x)
  {
    if s != [] {
      FilterMembers(s[..|s| - 1], p);
      assert s == s[..|s| - 1] + [s[|s| - 1]];
    }
  }

  lemma {:induction false} FilterAgree<T>(s: seq<T>, p: T -> bool, q: T -> bool)
    requires forall x :: x in s ==> p(x) == q(x)
    ensures Filter(s, p) == Filter(s, q)
  {
    if s != [] {
      FilterAgree(s[..|s| - 1], p, q);
      assert s[|s| - 1] in s;
    }
  }

  lemma {:induction false} FiltersCommute<T>(s: seq<T>, p: T -> bool, q: T -> bool)
    ensures Filter(Filter(s, p), q) == Filter(Filter(s, q), p)
  {
    if s != [] {
      var u, x := s[..|s| - 1], s[|s| - 1];
      FiltersCommute(u, p, q);
      FilterAppend(Filter(u, p), x, q);
      FilterAppend(Filter(u, q), x, p);
      assert !p(x) ==> Filter(s, p) == Filter(u, p);
      assert !q(x) ==> Filter(s, q) == Filter(u, q);
    }
  }

  /** How one write changes the results of one monitor behind the rows. */
  lemma OwnStep(ops: seq<Op>, name: string)
    requires ops != []
    ensures var before := Own(ops[..|ops| - 1], name);
            Own(ops, name) ==
              match ops[|ops| - 1]
              case Save(r) => if r.monitorName == name then before + [r] else before
              case Sync(ms) => if name in Names(ms) then before else []
              case Prune(t) => Filter(before, SecondNotBefore(t))
  {
    var l := Ledger(ops[..|ops| - 1]);
    var own := Filter(l, Named(name));
    match ops[|ops| - 1]
    case Save(r) => FilterAppend(l, r, Named(name));
    case Sync(ms) =>
      FiltersCommute(l, Listed(Names(ms)), Named(name));
      FilterMembers(l, Named(name));
      if name in Names(ms) {
        assert forall i :: 0 <= i < |own| ==> own[i] in own;
        FilterAll(own, Listed(Names(ms)));
      } else {
        assert forall i :: 0 <= i < |own| ==> own[i] in own;
        FilterNone(own, Listed(Names(ms)));
      }
    case Prune(t) => FiltersCommute(l, SecondNotBefore(t), Named(name));
  }

  /** How one write changes one monitor's window in memory. */
  lemma MemStep(ops: seq<Op>, name: string)
    requires ops != []
    ensures var before := HistoryOf(MemRun(ops[..|ops| - 1]).histories, name);
            HistoryOf(MemRun(ops).histories, name) ==
              match ops[|ops| - 1]
              case Save(r) => if r.monitorName == name then LastN(before + [r], HISTORY_SIZE) else before
              case Sync(ms) => if name in Names(ms) then before else []
              case Prune(t) => Filter(before, NotBefore(t))
  {
  }

  ghost predicate Sorted(rs: seq<Result>) {
    forall i, j :: 0 <= i < j < |rs| ==> rs[i].checkedAt <= rs[j].checkedAt
  }

  lemma {:induction false} LedgerFromSaves(ops: seq<Op>, x: Result)
    requires x in Ledger(ops)
    ensures exists i :: 0 <= i < |ops| && ops[i] == Save(x)
  {
    var n := |ops| - 1;
    var before := ops[..n];
    match ops[n]
    case Save(r) =>
      if x == r {
        assert ops[n] == Save(x);
      } else {
        LedgerFromSaves(before, x);
        var i :| 0 <= i < n && before[i] == Save(x);
        assert ops[i] == Save(x);
      }
    case Sync(ms) =>
      FilterMembers(Ledger(before), Listed(Names(ms)));
      LedgerFromSaves(before, x);
      var i :| 0 <= i < n && before[i] == Save(x);
      assert ops[i] == Save(x);
    case Prune(t) =>
      FilterMembers(Ledger(before), SecondNotBefore(t));
      LedgerFromSaves(before, x);
      var i :| 0 <= i < n && before[i] == Save(x);
      assert ops[i] == Save(x);
  }

  lemma {:induction false} FilterSorted(rs: seq<Result>, p: Result -> bool)
    requires Sorted(rs)
    ensures Sorted(Filter(rs, p))
  {
    if rs != [] {
      var u := rs[..|rs| - 1];
      FilterSorted(u, p);
      FilterMembers(u, p);
      forall x | x in Filter(u, p) ensures x.checkedAt <= rs[|rs| - 1].checkedAt {
        var i :| 0 <= i < |u| && u[i] == x;
        assert rs[i] == x;
      }
    }
  }

  lemma {:induction false} OwnSorted(ops: seq<Op>, name: string)
    requires Chronological(ops)
    ensures Sorted(Own(ops, name))
  {
    if ops != [] {
      var n := |ops| - 1;
      var before := ops[..n];
      OwnSorted(before, name);
      OwnStep(ops, name);
      match ops[n]
      case Save(r) =>
        if r.monitorName == name {
          FilterMembers(Ledger(before), Named(name));
          forall x | x in Own(before, name) ensures x.checkedAt <= r.checkedAt {
            LedgerFromSaves(before, x);
            var i :| 0 <= i < n && before[i] == Save(x);
            assert ops[i] == Save(x) && ops[n] == Save(r);
          }
        }
      case Sync(ms) =>
      case Prune(t) => FilterSorted(Own(before, name), SecondNotBefore(t));
    }
  }

  // ---------- any cutoffs: the row store never forgets more ----------

  lemma ChronologicalBefore(ops: seq<Op>, n: nat)
    requires Chronological(ops) && n <= |ops|
    ensures Chronological(ops[..n])
  {
  }

  /** Over any chronological run, whatever the cutoffs: the memory window is a suffix of the
      results behind the rows. */
  lemma {:induction false} MemoryWindowIsSuffix(ops: seq<Op>, name: string)
    requires Chronological(ops)
    ensures var h := HistoryOf(MemRun(ops).histories, name);
            |h| <= HISTORY_SIZE && IsSuffix(h, Own(ops, name))
  {
    if ops != [] {
      hide Chronological, LastN, Filter, Own;
      var n := |ops| - 1;
      var before := ops[..n];
      ChronologicalBefore(ops, n);
      var h, own := HistoryOf(MemRun(before).histories, name), Own(before, name);
      MemoryWindowIsSuffix(before, name);
      OwnStep(ops, name);
      MemStep(ops, name);
      match ops[n]
      case Save(r) =>
        if r.monitorName == name {
          SuffixAppend(h, own, r);
          LastNSuffix(h + [r], HISTORY_SIZE);
          SuffixTransitive(LastN(h + [r], HISTORY_SIZE), h + [r], own + [r]);
        }
      case Sync(ms) =>
      case Prune(t) =>
        OwnSorted(before, name);
        PruneKeepsSuffix(h, own, t);
    }
  }

  lemma SortedSuffix(h: seq<Result>, own: seq<Result>)
    requires Sorted(own) && IsSuffix(h, own)
    ensures Sorted(h)
  {
    assert forall i :: 0 <= i < |h| ==> h[i] == own[|own| - |h| + i];
  }

  lemma SortedUpward(rs: seq<Result>, cutoff: Time)
    requires Sorted(rs)
    ensures Upward(rs, NotBefore(cutoff)) && Upward(rs, SecondNotBefore(cutoff))
  {
  }

  /** The row store's whole-second test drops a result only if the memory store's exact test
      drops it too. */
  lemma PruneKeepsSuffix(h: seq<Result>, own: seq<Result>, cutoff: Time)
    requires Sorted(own) && IsSuffix(h, own)
    ensures IsSuffix(Filter(h, NotBefore(cutoff)), Filter(own, SecondNotBefore(cutoff)))
  {
    hide Filter, Sorted;
    var d := |own| - |h|;
    SortedSuffix(h, own);
    SortedUpward(h, cutoff);
    SortedUpward(own, cutoff);
    var j := FilterUpward(h, NotBefore(cutoff));
    var k := FilterUpward(own, SecondNotBefore(cutoff));
    if j < |h| {
      assert NotBefore(cutoff)(h[j]) && h[j] == own[d + j];
      assert SecondNotBefore(cutoff)(own[d + j]);
    }
    assert d + j >= k;
    assert h[j..] == own[d + j..];
  }

  /** So what the dashboard's memory shows is always the recent end of what the rows show. */
  lemma RowStoreForgetsLess(ops: seq<Op>, name: string)
    requires Chronological(ops)
    ensures IsSuffix(Map(Stored, HistoryOf(MemRun(ops).histories, name)), RowHistory(RowRun(ops).rows, name))
  {
    MemoryWindowIsSuffix(ops, name);
    RowHistoryIsStored(ops, name);
  }

  // ---------- which cutoffs keep the stores together ----------

  /** The row store's history of `name` is the memory store's, as rows keep it. */
  ghost predicate HistoriesAgree(ops: seq<Op>, name: string) {
    RowHistory(RowRun(ops).rows, name) == Map(Stored, HistoryOf(MemRun(ops).histories, name))
  }

  /** The cutoff falls inside the very second in which `r` was checked, after it. */
  predicate SplitsSecondOf(cutoff: Time, r: Result) {
    r.checkedAt < cutoff && Unix(r.checkedAt) == Unix(cutoff)
  }

  ghost predicate SplitsWithin(cutoff: Time, rs: seq<Result>) {
    exists r :: r in rs && SplitsSecondOf(cutoff, r)
  }

  /** Write number `i` is no prune that splits the second of a result held for `name` in memory. */
  ghost predicate CleanAt(ops: seq<Op>, i: nat, name: string)
    requires i < |ops|
  {
    ops[i].Prune? ==> !SplitsWithin(ops[i].cutoff, HistoryOf(MemRun(ops[..i]).histories, name))
  }

  ghost predicate NoSplits(ops: seq<Op>, name: string) {
    forall i :: 0 <= i < |ops| ==> CleanAt(ops, i, name)
  }

  /** The histories agree exactly while the memory window is the last sixty of what the rows hold. */
  lemma AgreeingIsLastSixty(ops: seq<Op>, name: string)
    requires Chronological(ops)
    ensures HistoriesAgree(ops, name) <==>
      HistoryOf(MemRun(ops).histories, name) == LastN(Own(ops, name), HISTORY_LIMIT)
  {
    hide Chronological, MemRun, RowRun, Own, Stored, RowHistory;
    MemoryWindowIsSuffix(ops, name);
    RowHistoryIsStored(ops, name);
  }

  /** Saves and reloads never separate the stores. */
  lemma OtherWritesAgree(ops: seq<Op>, name: string)
    requires ops != [] && Chronological(ops) && !ops[|ops| - 1].Prune? && HistoriesAgree(ops[..|ops| - 1], name)
    ensures HistoriesAgree(ops, name)
  {
    hide Chronological, HistoriesAgree, MemRun, Own;
    var before := ops[..|ops| - 1];
    ChronologicalBefore(ops, |ops| - 1);
    AgreeingIsLastSixty(before, name);
    AgreeingIsLastSixty(ops, name);
    OwnStep(ops, name);
    MemStep(ops, name);
    if ops[|ops| - 1].Save? {
      LastNAppend(Own(before, name), ops[|ops| - 1].result, HISTORY_SIZE);
    }
  }

  lemma ChronologicalPrune(ops: seq<Op>, cutoff: Time)
    requires Chronological(ops)
    ensures Chronological(ops + [Prune(cutoff)])
  {
    var after := ops + [Prune(cutoff)];
    assert forall i :: 0 <= i < |after| && after[i].Save? ==> i < |ops| && after[i] == ops[i];
  }

  /** Exactly when a prune, at any cutoff and after any writes, keeps histories equal that were
      equal: no result in the memory window may lie before the cutoff within the cutoff's own second. */
  lemma PruneAgreesExactly(ops: seq<Op>, cutoff: Time, name: string)
    requires Chronological(ops) && HistoriesAgree(ops, name)
    ensures HistoriesAgree(ops + [Prune(cutoff)], name) <==>
      !SplitsWithin(cutoff, HistoryOf(MemRun(ops).histories, name))
  {
    hide Chronological, HistoriesAgree, MemRun, Own, Filter, Sorted, Upward;
    var after := ops + [Prune(cutoff)];
    assert after[..|ops|] == ops;
    ChronologicalPrune(ops, cutoff);
    var h, own := HistoryOf(MemRun(ops).histories, name), Own(ops, name);
    AgreeingIsLastSixty(ops, name);
    AgreeingIsLastSixty(after, name);
    OwnSorted(ops, name);
    OwnStep(after, name);
    MemStep(after, name);
    SortedUpward(own, cutoff);
    FilterLastN(own, SecondNotBefore(cutoff), HISTORY_LIMIT);
    LastNSorted(own, HISTORY_LIMIT);
    if SplitsWithin(cutoff, h) {
      var r :| r in h && SplitsSecondOf(cutoff, r);
      SplitSecondSeparates(h, r, cutoff);
    } else {
      NoSplitNoDifference(h, cutoff);
    }
  }

  /** The histories of `name` agree after each of the first writes up to every point of the run. */
  ghost predicate AgreeThroughout(ops: seq<Op>, name: string) {
    forall k :: 0 <= k <= |ops| ==> HistoriesAgree(ops[..k], name)
  }

  lemma {:induction false} NoSplitsAgree(ops: seq<Op>, name: string)
    requires Chronological(ops) && NoSplits(ops, name)
    ensures HistoriesAgree(ops, name)
  {
    if ops != [] {
      hide Chronological, HistoriesAgree, MemRun, RowRun, SplitsWithin;
      var n := |ops| - 1;
      ChronologicalBefore(ops, n);
      NoSplitsBefore(ops, n, name);
      NoSplitsAgree(ops[..n], name);
      if ops[n].Prune? {
        assert CleanAt(ops, n, name);
        PruneAgreesExactly(ops[..n], ops[n].cutoff, name);
        assert ops == ops[..n] + [ops[n]];
      } else {
        OtherWritesAgree(ops, name);
      }
    }
  }

  lemma NoSplitsBefore(ops: seq<Op>, n: nat, name: string)
    requires NoSplits(ops, name) && n <= |ops|
    ensures NoSplits(ops[..n], name)
  {
    hide SplitsWithin, MemRun;
    forall i | 0 <= i < n ensures CleanAt(ops[..n], i, name) {
      assert CleanAt(ops, i, name);
      assert ops[..n][..i] == ops[..i];
    }
  }

  /** Over whole runs with arbitrary cutoffs: a monitor's two histories agree at every point exactly
      when no prune split the second of a result the memory store held at that moment. */
  lemma AgreeThroughoutExactly(ops: seq<Op>, name: string)
    requires Chronological(ops)
    ensures AgreeThroughout(ops, name) <==> NoSplits(ops, name)
  {
    hide Chronological, HistoriesAgree, MemRun, RowRun, SplitsWithin;
    if NoSplits(ops, name) {
      forall k | 0 <= k <= |ops| ensures HistoriesAgree(ops[..k], name) {
        ChronologicalBefore(ops, k);
        NoSplitsBefore(ops, k, name);
        NoSplitsAgree(ops[..k], name);
      }
    }
    if AgreeThroughout(ops, name) {
      forall i | 0 <= i < |ops| ensures CleanAt(ops, i, name) {
        if ops[i].Prune? {
          ChronologicalBefore(ops, i);
          assert HistoriesAgree(ops[..i], name) && HistoriesAgree(ops[..i + 1], name);
          PruneAgreesExactly(ops[..i], ops[i].cutoff, name);
          assert ops[..i + 1] == ops[..i] + [ops[i]];
        }
      }
    }
  }

  /** Cutoffs on whole seconds split nothing. */
  lemma WholeSecondsNeverSplit(ops: seq<Op>, name: string)
    requires forall i :: 0 <= i < |ops| && ops[i].Prune? ==> ops[i].cutoff % SECOND == 0
    ensures NoSplits(ops, name)
  {
  }

  lemma {:induction false} TableMirrorsList(ops: seq<Op>)
    requires DistinctLists(ops)
    ensures RowRun(ops).table == Upserts(MemRun(ops).monitors) && DistinctNames(MemRun(ops).monitors)
  {
    if ops != [] {
      TableMirrorsList(ops[..|ops| - 1]);
      assert ops[|ops| - 1].Sync? ==> DistinctNames(ops[|ops| - 1].list);
    }
  }

  lemma SameList(ops: seq<Op>, out: seq<Monitor>)
    requires DistinctLists(ops)
    ensures IsListing(RowRun(ops).table, out) <==> out == MemRun(ops).monitors
  {
    TableMirrorsList(ops);
    var ms := MemRun(ops).monitors;
    ListEchoesSync(ms);
    ListAfterSync(ms, out);
    ListAfterSync(ms, ms);
  }

  /** Store refinement: over every sequence of writes, at any cutoffs, the row store answers `List`
      with the memory store's list; and it has answered `History` with the memory store's window, as
      rows keep it, all along, for exactly the monitors none of whose results had its second split. */
  lemma StoresAgree(ops: seq<Op>)
    requires Chronological(ops) && DistinctLists(ops)
    ensures forall out :: IsListing(RowRun(ops).table, out) <==> out == MemRun(ops).monitors
    ensures forall name :: AgreeThroughout(ops, name) <==> NoSplits(ops, name)
  {
    hide IsListing, AgreeThroughout, NoSplits, Chronological;
    forall out ensures IsListing(RowRun(ops).table, out) <==> out == MemRun(ops).monitors {
      SameList(ops, out);
    }
    forall name ensures AgreeThroughout(ops, name) <==> NoSplits(ops, name) {
      AgreeThroughoutExactly(ops, name);
    }
  }

  lemma NothingYet(name: string)
    ensures HistoryOf(MemRun([]).histories, name) == [] && Own([], name) == []
  {
  }

  lemma FilterOne(r: Result, p: Result -> bool)
    ensures Filter([r], p) == if p(r) then [r] else []
  {
    FilterAppend([], r, p);
    assert [] + [r] == [r];
  }

  /** One result checked at 0.2 s and a cutoff at 0.5 s: the memory store forgets it, the row store
      still shows it. */
  lemma SplitSecondWitness(m: Monitor, r: Result)
    requires r.monitorName == m.name && r.checkedAt == 200 * MILLISECOND
    ensures var ops := [Sync([m]), Save(r), Prune(500 * MILLISECOND)];
            && Chronological(ops) && DistinctLists(ops)
            && HistoryOf(MemRun(ops).histories, m.name) == []
            && RowHistory(RowRun(ops).rows, m.name) == [Stored(r)]
            && !HistoriesAgree(ops, m.name)
  {
    hide Stored, RowHistory, Filter, Ledger;
    var ops := [Sync([m]), Save(r), Prune(500 * MILLISECOND)];
    var two, one := [Sync([m]), Save(r)], [Sync([m])];
    assert ops[..2] == two && two[..1] == one && one[..0] == [];
    NothingYet(m.name);
    hide MemRun, RowRun, Own;
    OwnStep(one, m.name);
    OwnStep(two, m.name);
    OwnStep(ops, m.name);
    MemStep(one, m.name);
    MemStep(two, m.name);
    MemStep(ops, m.name);
    assert Own(two, m.name) == [r] && HistoryOf(MemRun(two).histories, m.name) == [r];
    FilterOne(r, NotBefore(500 * MILLISECOND));
    FilterOne(r, SecondNotBefore(500 * MILLISECOND));
    RowHistoryIsStored(ops, m.name);
  }

  lemma NoSplitNoDifference(h: seq<Result>, cutoff: Time)
    requires !SplitsWithin(cutoff, h)
    ensures Filter(h, SecondNotBefore(cutoff)) == Filter(h, NotBefore(cutoff))
  {
    forall r | r in h ensures SecondNotBefore(cutoff)(r) == NotBefore(cutoff)(r) {
      assert !SplitsSecondOf(cutoff, r);
    }
    FilterAgree(h, SecondNotBefore(cutoff), NotBefore(cutoff));
  }

  lemma LastNSorted(rs: seq<Result>, n: nat)
    requires Sorted(rs)
    ensures Sorted(LastN(rs, n))
  {
    var t := LastN(rs, n);
    var d := |rs| - |t|;
    forall i, j | 0 <= i < j < |t| ensures t[i].checkedAt <= t[j].checkedAt {
      assert t[i] == rs[d + i] && t[j] == rs[d + j];
    }
  }

  lemma SplitSecondSeparates(h: seq<Result>, r: Result, cutoff: Time)
    requires Sorted(h) && r in h && SplitsSecondOf(cutoff, r)
    ensures |Filter(h, SecondNotBefore(cutoff))| > |Filter(h, NotBefore(cutoff))|
  {
    var i :| 0 <= i < |h| && h[i] == r;
    var j := FilterUpward(h, NotBefore(cutoff));
    var k := FilterUpward(h, SecondNotBefore(cutoff));
    assert !NotBefore(cutoff)(r) && SecondNotBefore(cutoff)(r);
    assert k <= i < j;
  }

  // ---------- through the dashboard ----------

  /** A whole dashboard response: one card per listed monitor, in list order. */
  function Cards(ms: seq<Monitor>, hist: string -> seq<Result>, state: string -> State): seq<Health> {
    Map((m: Monitor) => HealthOf(m, hist(m.name), state(m.name)), ms)
  }

  ghost predicate ProbedOnly(ops: seq<Op>) {
    forall i :: 0 <= i < |ops| && ops[i].Save? ==>
      ProberShaped(ops[i].result) && ops[i].result.certExpiry % SECOND == 0
  }

  lemma CardShowsHistory(m: Monitor, hist: seq<Result>, state: State)
    ensures |HealthOf(m, hist, state).recent| == |hist|
  {
  }

  lemma WindowIsProbed(ops: seq<Op>, name: string)
    requires Chronological(ops) && ProbedOnly(ops)
    ensures Probed(HistoryOf(MemRun(ops).histories, name))
  {
    hide Chronological;
    var h, own := HistoryOf(MemRun(ops).histories, name), Own(ops, name);
    MemoryWindowIsSuffix(ops, name);
    FilterMembers(Ledger(ops), Named(name));
    forall k | 0 <= k < |h| ensures ProberShaped(h[k]) && h[k].certExpiry % SECOND == 0 {
      assert h[k] == own[|own| - |h| + k];
      LedgerFromSaves(ops, h[k]);
      var s :| 0 <= s < |ops| && ops[s] == Save(h[k]);
      assert ops[s].result == h[k];
    }
  }

  /** One card is the same from either store exactly when the monitor's two histories agree: the
      row store otherwise shows more bars. */
  lemma SameCardExactly(ops: seq<Op>, m: Monitor, state: State)
    requires Chronological(ops) && ProbedOnly(ops)
    ensures HealthOf(m, RowHistory(RowRun(ops).rows, m.name), state)
         == HealthOf(m, HistoryOf(MemRun(ops).histories, m.name), state)
        <==> HistoriesAgree(ops, m.name)
  {
    hide Chronological, RowHistory, HealthOf, Stored, ProbedOnly;
    var h, rows := HistoryOf(MemRun(ops).histories, m.name), RowHistory(RowRun(ops).rows, m.name);
    WindowIsProbed(ops, m.name);
    RowStoreForgetsLess(ops, m.name);
    if rows == Map(Stored, h) {
      SameCardForProbedResults(m, h, state);
    } else {
      CardShowsHistory(m, h, state);
      CardShowsHistory(m, rows, state);
      WholeSuffix(Map(Stored, h), rows);
    }
  }

  /** Exactly when the daemon's dashboard does not depend on which store it runs on: after any
      writes with real probe results, at any cutoffs, the whole response is the same, card by card
      and field by field, if and only if the histories of all listed monitors agree. */
  lemma SameDashboardExactly(ops: seq<Op>, out: seq<Monitor>, state: string -> State)
    requires Chronological(ops) && DistinctLists(ops) && ProbedOnly(ops)
    requires IsListing(RowRun(ops).table, out)
    ensures Cards(out, name => RowHistory(RowRun(ops).rows, name), state)
         == Cards(MemRun(ops).monitors, name => HistoryOf(MemRun(ops).histories, name), state)
        <==> forall m :: m in out ==> HistoriesAgree(ops, m.name)
  {
    hide Chronological, DistinctLists, ProbedOnly, IsListing, HealthOf, HistoriesAgree, RowHistory, HistoryOf;
    SameList(ops, out);
    var a := Cards(out, name => RowHistory(RowRun(ops).rows, name), state);
    var b := Cards(out, name => HistoryOf(MemRun(ops).histories, name), state);
    forall i | 0 <= i < |out| ensures a[i] == b[i] <==> HistoriesAgree(ops, out[i].name) {
      SameCardExactly(ops, out[i], state(out[i].name));
    }
    if a == b {
      forall m | m in out ensures HistoriesAgree(ops, m.name) {
        var i :| 0 <= i < |out| && out[i] == m;
        assert a[i] == b[i];
      }
    }
  }

  /** So with prunes that split no second of a listed monitor the two dashboards are the same. */
  lemma SameDashboard(ops: seq<Op>, out: seq<Monitor>, state: string -> State)
    requires Chronological(ops) && DistinctLists(ops) && ProbedOnly(ops)
    requires IsListing(RowRun(ops).table, out)
    requires forall m :: m in out ==> NoSplits(ops, m.name)
    ensures Cards(out, name => RowHistory(RowRun(ops).rows, name), state)
         == Cards(MemRun(ops).monitors, name => HistoryOf(MemRun(ops).histories, name), state)
  {
    hide Chronological, DistinctLists, ProbedOnly, IsListing, HealthOf, HistoriesAgree, RowHistory, HistoryOf, NoSplits;
    forall m | m in out ensures HistoriesAgree(ops, m.name) {
      NoSplitsAgree(ops, m.name);
    }
    SameDashboardExactly(ops, out, state);
  }
}
