/** When the two stores agree at one given moment, read off the writes themselves. */
module SplitSeconds {
  import opened Monitoring
  import opened Sequences
  import opened MemoryStore
  import opened RowStore
  import opened Refinement

  /** A result whose row is still in the table, and which write saved it. */
  datatype Survivor = Survivor(result: Result, at: nat)

  function OnResult(p: Result -> bool): Survivor -> bool {
    (s: Survivor) => p(s.result)
  }

  /** The survivors of `name` after write number `n`. */
  function SurvivorsAfter(before: seq<Survivor>, op: Op, n: nat, name: string): seq<Survivor> {
    match op
    case Save(r) => if r.monitorName == name then before + [Survivor(r, n)] else before
    case Sync(ms) => if name in Names(ms) then before else []
    case Prune(t) => Filter(before, OnResult(SecondNotBefore(t)))
  }

  function Survivors(ops: seq<Op>, name: string): seq<Survivor> {
    if ops == [] then []
    else SurvivorsAfter(Survivors(ops[..|ops| - 1], name), ops[|ops| - 1], |ops| - 1, name)
  }

  /** Some prune after its save split the result's second. */
  predicate SplitLater(ops: seq<Op>, s: Survivor) {
    exists k :: s.at < k < |ops| && ops[k].Prune? && SplitsSecondOf(ops[k].cutoff, s.result)
  }

  function Whole(ops: seq<Op>): Survivor -> bool {
    (s: Survivor) => !SplitLater(ops, s)
  }

  function ResultsOf(ss: seq<Survivor>): seq<Result> {
    Map((s: Survivor) => s.result, ss)
  }

  lemma {:induction false} ResultsFilter(ss: seq<Survivor>, p: Result -> bool)
    ensures ResultsOf(Filter(ss, OnResult(p))) == Filter(ResultsOf(ss), p)
  {
    if ss != [] {
      var n := |ss| - 1;
      ResultsFilter(ss[..n], p);
      assert ResultsOf(ss)[..n] == ResultsOf(ss[..n]);
    }
  }

  lemma SurvivorsStep(ops: seq<Op>, name: string)
    requires ops != []
    ensures var n := |ops| - 1;
            Survivors(ops, name) == SurvivorsAfter(Survivors(ops[..n], name), ops[n], n, name)
  {
  }

  /** The survivors are the results behind the rows. */
  lemma {:induction false} OwnSurvives(ops: seq<Op>, name: string)
    ensures ResultsOf(Survivors(ops, name)) == Own(ops, name)
  {
    if ops == [] {
      assert Own(ops, name) == [];
    } else {
      hide Own, Survivors, Filter;
      var n := |ops| - 1;
      OwnSurvives(ops[..n], name);
      OwnStep(ops, name);
      SurvivorsStep(ops, name);
      if ops[n].Prune? {
        ResultsFilter(Survivors(ops[..n], name), SecondNotBefore(ops[n].cutoff));
      }
    }
  }

  /** Survivors come in the order of their saves, and no prune since has removed their rows. */
  ghost predicate Ordered(ops: seq<Op>, ss: seq<Survivor>) {
    && (forall i :: 0 <= i < |ss| ==> ss[i].at < |ops|)
    && (forall i, j :: 0 <= i < j < |ss| ==> ss[i].at < ss[j].at)
    && (forall i, k :: 0 <= i < |ss| && ss[i].at < k < |ops| && ops[k].Prune? ==>
      SecondNotBefore(ops[k].cutoff)(ss[i].result))
  }

  lemma {:induction false} SurvivorsOrdered(ops: seq<Op>, name: string)
    ensures Ordered(ops, Survivors(ops, name))
  {
    if ops != [] {
      hide Survivors, Filter;
      var n := |ops| - 1;
      SurvivorsOrdered(ops[..n], name);
      SurvivorsStep(ops, name);
      var before := Survivors(ops[..n], name);
      hide Ordered;
      match ops[n]
      case Save(r) => SavedOrdered(ops, before, r);
      case Sync(_) =>
        StillOrdered(ops, before);
        NoneOrdered(ops);
      case Prune(t) =>
        var f := FilterPlaces(before, OnResult(SecondNotBefore(t)));
        PlacesOrdered(ops, before, Survivors(ops, name), f);
    } else {
      NoneOrdered(ops);
    }
  }

  lemma NoneOrdered(ops: seq<Op>)
    ensures Ordered(ops, [])
  {
  }

  lemma SavedOrdered(ops: seq<Op>, before: seq<Survivor>, r: Result)
    requires ops != [] && Ordered(ops[..|ops| - 1], before) && !ops[|ops| - 1].Prune?
    ensures Ordered(ops, before) && Ordered(ops, before + [Survivor(r, |ops| - 1)])
  {
    StillOrdered(ops, before);
  }

  lemma StillOrdered(ops: seq<Op>, before: seq<Survivor>)
    requires ops != [] && Ordered(ops[..|ops| - 1], before) && !ops[|ops| - 1].Prune?
    ensures Ordered(ops, before)
  {
    var n := |ops| - 1;
    forall i, k | 0 <= i < |before| && before[i].at < k < |ops| && ops[k].Prune?
      ensures SecondNotBefore(ops[k].cutoff)(before[i].result)
    {
      assert ops[..n][k] == ops[k];
    }
  }

  lemma PlacesOrdered(ops: seq<Op>, before: seq<Survivor>, after: seq<Survivor>, f: seq<nat>)
    requires ops != [] && Ordered(ops[..|ops| - 1], before) && |f| == |after| && ops[|ops| - 1].Prune?
    requires forall i :: 0 <= i < |f| ==> f[i] < |before| && after[i] == before[f[i]]
    requires forall i :: 0 <= i < |f| ==> SecondNotBefore(ops[|ops| - 1].cutoff)(after[i].result)
    requires forall i, j :: 0 <= i < j < |f| ==> f[i] < f[j]
    ensures Ordered(ops, after)
  {
    forall i, k | 0 <= i < |after| && after[i].at < k < |ops| && ops[k].Prune?
      ensures SecondNotBefore(ops[k].cutoff)(after[i].result)
    {
      if k < |ops| - 1 {
        assert ops[..|ops| - 1][k] == ops[k] && before[f[i]].at < k;
      }
    }
  }

  function Both<T>(p: T -> bool, q: T -> bool): T -> bool {
    (x: T) => p(x) && q(x)
  }

  lemma {:induction false} FilterTwice<T>(s: seq<T>, p: T -> bool, q: T -> bool)
    ensures Filter(Filter(s, p), q) == Filter(s, Both(p, q))
  {
    if s != [] {
      var u, x := s[..|s| - 1], s[|s| - 1];
      FilterTwice(u, p, q);
      FilterAppend(Filter(u, p), x, q);
      assert !p(x) ==> Filter(s, p) == Filter(u, p);
    }
  }

  /** A write that is no prune splits nothing; a prune splits what lies before it in its second. */
  lemma WholeStep(ops: seq<Op>, s: Survivor)
    requires ops != [] && s.at < |ops| - 1
    ensures var n := |ops| - 1;
            Whole(ops)(s) <==> Whole(ops[..n])(s) && !(ops[n].Prune? && SplitsSecondOf(ops[n].cutoff, s.result))
  {
    var n := |ops| - 1;
    if SplitLater(ops, s) {
      var k :| s.at < k < |ops| && ops[k].Prune? && SplitsSecondOf(ops[k].cutoff, s.result);
      assert k < n ==> ops[..n][k] == ops[k];
    }
    if SplitLater(ops[..n], s) {
      var k :| s.at < k < n && ops[..n][k].Prune? && SplitsSecondOf(ops[..n][k].cutoff, s.result);
      assert ops[k] == ops[..n][k];
    }
  }

  lemma NewIsWhole(ops: seq<Op>, r: Result)
    requires ops != []
    ensures Whole(ops)(Survivor(r, |ops| - 1))
  {
  }

  /** What no prune has split of the survivors. */
  function Kept(ops: seq<Op>, name: string): seq<Survivor> {
    Filter(Survivors(ops, name), Whole(ops))
  }

  lemma KeptQuiet(ops: seq<Op>, name: string)
    requires ops != [] && !ops[|ops| - 1].Prune?
    ensures var n := |ops| - 1;
            Filter(Survivors(ops[..n], name), Whole(ops)) == Kept(ops[..n], name)
  {
    hide Filter, Survivors, Whole;
    var n := |ops| - 1;
    var before := Survivors(ops[..n], name);
    SurvivorsOrdered(ops[..n], name);
    forall s | s in before ensures Whole(ops)(s) == Whole(ops[..n])(s) {
      var i :| 0 <= i < |before| && before[i] == s;
      WholeStep(ops, s);
    }
    FilterAgree(before, Whole(ops), Whole(ops[..n]));
  }

  lemma KeptPruned(ops: seq<Op>, name: string)
    requires ops != [] && ops[|ops| - 1].Prune?
    ensures Kept(ops, name) == Filter(Kept(ops[..|ops| - 1], name), OnResult(NotBefore(ops[|ops| - 1].cutoff)))
  {
    hide Filter, Survivors, Whole;
    var n, t := |ops| - 1, ops[|ops| - 1].cutoff;
    var before := Survivors(ops[..n], name);
    SurvivorsStep(ops, name);
    SurvivorsOrdered(ops[..n], name);
    var p := Both(OnResult(SecondNotBefore(t)), Whole(ops));
    var q := Both(Whole(ops[..n]), OnResult(NotBefore(t)));
    FilterTwice(before, OnResult(SecondNotBefore(t)), Whole(ops));
    FilterTwice(before, Whole(ops[..n]), OnResult(NotBefore(t)));
    forall s | s in before ensures p(s) == q(s) {
      var i :| 0 <= i < |before| && before[i] == s;
      WholeStep(ops, s);
    }
    FilterAgree(before, p, q);
  }

  lemma KeptSorted(ops: seq<Op>, name: string)
    requires Chronological(ops)
    ensures Sorted(ResultsOf(Survivors(ops, name))) && Sorted(ResultsOf(Kept(ops, name)))
  {
    hide Filter, Survivors, Whole;
    OwnSorted(ops, name);
    OwnSurvives(ops, name);
    var f := FilterPlaces(Survivors(ops, name), Whole(ops));
    var all, kept := ResultsOf(Survivors(ops, name)), ResultsOf(Kept(ops, name));
    forall i, j | 0 <= i < j < |kept| ensures kept[i].checkedAt <= kept[j].checkedAt {
      assert kept[i] == all[f[i]] && kept[j] == all[f[j]] && f[i] < f[j];
    }
  }

  /** The memory window is the last sixty survivors that no prune has split. */
  lemma {:induction false} MemoryIsKept(ops: seq<Op>, name: string)
    requires Chronological(ops)
    ensures HistoryOf(MemRun(ops).histories, name) == LastN(ResultsOf(Kept(ops, name)), HISTORY_SIZE)
  {
    if ops == [] {
      assert HistoryOf(MemRun(ops).histories, name) == [];
    } else {
      hide Filter, Survivors, Whole, Chronological, MemRun, Sorted, Upward, Kept;
      var n := |ops| - 1;
      ChronologicalBefore(ops, n);
      MemoryIsKept(ops[..n], name);
      MemStep(ops, name);
      var before := ResultsOf(Kept(ops[..n], name));
      if ops[n].Prune? {
        KeptPruned(ops, name);
        ResultsFilter(Kept(ops[..n], name), NotBefore(ops[n].cutoff));
        KeptSorted(ops[..n], name);
        SortedUpward(before, ops[n].cutoff);
        FilterLastN(before, NotBefore(ops[n].cutoff), HISTORY_SIZE);
      } else {
        KeptNext(ops, name);
        if ops[n].Save? {
          LastNAppend(before, ops[n].result, HISTORY_SIZE);
        }
      }
    }
  }

  lemma KeptNext(ops: seq<Op>, name: string)
    requires ops != [] && !ops[|ops| - 1].Prune?
    ensures var n := |ops| - 1;
            var before := ResultsOf(Kept(ops[..n], name));
            ResultsOf(Kept(ops, name)) ==
              if ops[n].Save? then (if ops[n].result.monitorName == name then before + [ops[n].result] else before)
              else if name in Names(ops[n].list) then before
              else []
  {
    hide Survivors, Whole, Filter;
    var n := |ops| - 1;
    KeptQuiet(ops, name);
    SurvivorsStep(ops, name);
    if ops[n].Save? && ops[n].result.monitorName == name {
      FilterAppend(Survivors(ops[..n], name), Survivor(ops[n].result, n), Whole(ops));
      NewIsWhole(ops, ops[n].result);
    } else if ops[n].Sync? && name !in Names(ops[n].list) {
      FilterEmpty(Whole(ops));
    }
  }

  lemma FilterEmpty(p: Survivor -> bool)
    ensures Filter([], p) == []
  {
  }

  /** Prunes split the older survivors first. */
  lemma SplitsOldFirst(ops: seq<Op>, name: string)
    requires Chronological(ops)
    ensures Upward(Survivors(ops, name), Whole(ops))
  {
    hide Survivors, Chronological, Filter;
    var ss := Survivors(ops, name);
    SurvivorsOrdered(ops, name);
    KeptSorted(ops, name);
    forall i, j | 0 <= i < j < |ss| && Whole(ops)(ss[i]) ensures Whole(ops)(ss[j]) {
      assert ResultsOf(ss)[i].checkedAt <= ResultsOf(ss)[j].checkedAt;
      if SplitLater(ops, ss[j]) {
        SplitsToo(ops, ss, i, j);
      }
    }
  }

  /** A prune that splits a survivor's second has split that of every older survivor. */
  lemma SplitsToo(ops: seq<Op>, ss: seq<Survivor>, i: nat, j: nat)
    requires Ordered(ops, ss) && i < j < |ss| && ss[i].result.checkedAt <= ss[j].result.checkedAt
    requires SplitLater(ops, ss[j])
    ensures SplitLater(ops, ss[i])
  {
    var k :| ss[j].at < k < |ops| && ops[k].Prune? && SplitsSecondOf(ops[k].cutoff, ss[j].result);
    assert SecondNotBefore(ops[k].cutoff)(ss[i].result);
    assert SplitsSecondOf(ops[k].cutoff, ss[i].result);
  }

  /** No prune has split the second of one of the last sixty surviving results since its save. */
  ghost predicate NoneSplit(ops: seq<Op>, name: string) {
    forall s :: s in LastN(Survivors(ops, name), HISTORY_LIMIT) ==> !SplitLater(ops, s)
  }

  /** At any moment of any chronological run, at any cutoffs: a monitor's histories in the two stores
      agree exactly when none of its last sixty surviving results has had its second split by a prune
      since it was saved. After a split the stores agree again as soon as sixty results are newer. */
  lemma AgreeExactly(ops: seq<Op>, name: string)
    requires Chronological(ops)
    ensures HistoriesAgree(ops, name) <==> NoneSplit(ops, name)
  {
    hide Survivors, Chronological, HistoriesAgree, MemRun, Own, Filter, SplitLater, Upward;
    var ss := Survivors(ops, name);
    AgreeingIsLastSixty(ops, name);
    MemoryIsKept(ops, name);
    OwnSurvives(ops, name);
    SplitsOldFirst(ops, name);
    var k := FilterUpward(ss, Whole(ops));
    SameEnd(ss, k);
    AllPast(ss, Whole(ops), k);
    assert HistoriesAgree(ops, name) <==> k <= |ss| - |LastN(ss, HISTORY_LIMIT)|;
    forall s ensures Whole(ops)(s) <==> !SplitLater(ops, s) {
    }
  }

  /** Dropping a prefix leaves the last sixty as they are exactly when it ends before them. */
  lemma SameEnd(ss: seq<Survivor>, k: nat)
    requires k <= |ss|
    ensures LastN(ResultsOf(ss[k..]), HISTORY_LIMIT) == LastN(ResultsOf(ss), HISTORY_LIMIT)
      <==> k <= |ss| - |LastN(ss, HISTORY_LIMIT)|
  {
    assert ResultsOf(ss[k..]) == ResultsOf(ss)[k..];
  }

  lemma AllPast(ss: seq<Survivor>, p: Survivor -> bool, k: nat)
    requires k <= |ss|
    requires forall i :: 0 <= i < k ==> !p(ss[i])
    requires forall i :: k <= i < |ss| ==> p(ss[i])
    ensures (forall s :: s in LastN(ss, HISTORY_LIMIT) ==> p(s)) <==> k <= |ss| - |LastN(ss, HISTORY_LIMIT)|
  {
    var last := LastN(ss, HISTORY_LIMIT);
    var d := |ss| - |last|;
    if k <= d {
      forall s | s in last ensures p(s) {
        var i :| 0 <= i < |last| && last[i] == s;
        assert ss[d + i] == s;
      }
    } else {
      assert ss[k - 1] == last[k - 1 - d];
    }
  }

  /** The two dashboards, at any moment: equal exactly when none of the last sixty surviving results
      of any listed monitor has had its second split. */
  lemma DashboardsExactly(ops: seq<Op>, out: seq<Monitor>, state: string -> State)
    requires Chronological(ops) && DistinctLists(ops) && ProbedOnly(ops)
    requires IsListing(RowRun(ops).table, out)
    ensures Cards(out, name => RowHistory(RowRun(ops).rows, name), state)
         == Cards(MemRun(ops).monitors, name => HistoryOf(MemRun(ops).histories, name), state)
        <==> forall m :: m in out ==> NoneSplit(ops, m.name)
  {
    hide Chronological, DistinctLists, ProbedOnly, IsListing, HistoriesAgree, RowHistory, HistoryOf;
    SameDashboardExactly(ops, out, state);
    forall m | m in out ensures HistoriesAgree(ops, m.name) <==> NoneSplit(ops, m.name) {
      AgreeExactly(ops, m.name);
    }
  }
}
