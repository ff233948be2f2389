/** The SQLite store, by the relational meaning of its statements: a table of monitors keyed by
    name, and a table of result rows in the order of their increasing ids. */
module RowStore {
  import opened Monitoring
  import opened Sequences
  import opened Codec
  import opened MemoryStore

  const HISTORY_LIMIT: nat := 60

  datatype MonitorRow = MonitorRow(url: string, pos: nat)

  type MonitorTable = map<string, MonitorRow>

  function RowNamed(name: string): Row -> bool {
    (row: Row) => row.monitorName == name
  }

  function RowNotBefore(cutoff: Time): Row -> bool {
    (row: Row) => row.checkedAt >= Unix(cutoff)
  }

  function RowListed(names: set<string>): Row -> bool {
    (row: Row) => row.monitorName in names
  }

  /** WHERE monitor_name = ? ORDER BY id DESC LIMIT 60, then ORDER BY id ASC. */
  function SelectHistory(rows: seq<Row>, name: string): seq<Row> {
    LastN(Filter(rows, RowNamed(name)), HISTORY_LIMIT)
  }

  function DecodedAs(name: string): Row -> Result {
    (row: Row) => Decode(row, name)
  }

  /** What `History` returns. */
  function RowHistory(rows: seq<Row>, name: string): seq<Result> {
    Map(DecodedAs(name), SelectHistory(rows, name))
  }

  /** INSERT ... ON CONFLICT(name) DO UPDATE, once per list entry. */
  function Upserts(ms: seq<Monitor>): MonitorTable {
    if ms == [] then map[]
    else
      var m := ms[|ms| - 1];
      Upserts(ms[..|ms| - 1])[m.name := MonitorRow(m.url, |ms| - 1)]
  }

  /** An answer to SELECT name, url ... ORDER BY pos: every row once, by nondecreasing position. */
  ghost predicate IsListing(table: MonitorTable, out: seq<Monitor>) {
    && DistinctNames(out)
    && Names(out) == table.Keys
    && (forall i :: 0 <= i < |out| ==> out[i].name in table && out[i].url == table[out[i].name].url)
    && (forall i, j :: 0 <= i < j < |out| ==> table[out[i].name].pos <= table[out[j].name].pos)
  }

  /** `History` shows the last rows of the name, at most sixty, oldest first, with the times and
      durations their columns stand for. */
  lemma RowHistoryMeans(rows: seq<Row>, name: string) returns (f: seq<nat>)
    ensures forall i :: 0 <= i < |f| ==> f[i] < |rows|
    ensures forall k :: k in f <==> 0 <= k < |rows| && rows[k].monitorName == name
    ensures forall i, j :: 0 <= i < j < |f| ==> f[i] < f[j]
    ensures |RowHistory(rows, name)| == if |f| <= 60 then |f| else 60
    ensures forall i :: 0 <= i < |RowHistory(rows, name)| ==>
      RowHistory(rows, name)[i] == Decode(rows[f[|f| - |RowHistory(rows, name)| + i]], name)
  {
    f := FilterPlaces(rows, RowNamed(name));
    hide Filter, Decode;
    forall k | 0 <= k < |rows| && rows[k].monitorName == name ensures k in f {
      assert RowNamed(name)(rows[k]);
    }
  }

  /** A prune keeps a row exactly if the second after its own begins after the cutoff. */
  lemma RowPruneMeans(row: Row, cutoff: Time)
    ensures RowNotBefore(cutoff)(row) <==> (row.checkedAt + 1) * 1_000_000_000 > cutoff
  {
    UnixMeans(cutoff);
  }

  class SQLite {
    var table: MonitorTable
    var rows: seq<Row>
    var nextId: nat

    /** AUTOINCREMENT: ids grow along the table and are never handed out twice. */
    ghost predicate Valid()
      reads this
    {
      IdsGrow(rows, nextId)
    }

    constructor ()
      ensures Valid() && table == map[] && rows == [] && nextId == 1
    {
      table, rows, nextId := map[], [], 1;
    }

    method Save(r: Result)
      requires Valid()
      modifies this
      ensures Valid() && table == old(table)
      ensures rows == old(rows) + [Encode(old(nextId), r)] && nextId == old(nextId) + 1
    {
      rows := rows + [Encode(nextId, r)];
      nextId := nextId + 1;
    }

    method History(name: string) returns (out: seq<Result>)
      requires Valid()
      ensures out == RowHistory(rows, name)
    {
      var selected := SelectHistory(rows, name);
      out := [];
      for i := 0 to |selected|
        invariant out == Map(DecodedAs(name), selected[..i])
      {
        assert selected[..i + 1] == selected[..i] + [selected[i]];
        out := out + [Decode(selected[i], name)];
      }
      assert selected[..|selected|] == selected;
    }

    method Prune(cutoff: Time)
      requires Valid()
      modifies this
      ensures Valid() && table == old(table) && nextId == old(nextId)
      ensures rows == Filter(old(rows), RowNotBefore(cutoff))
    {
      FilterKeepsIds(rows, RowNotBefore(cutoff), nextId);
      rows := Filter(rows, RowNotBefore(cutoff));
    }

    method Sync(ms: seq<Monitor>)
      requires Valid()
      modifies this
      ensures Valid() && nextId == old(nextId)
      ensures table == Upserts(ms)
      ensures rows == Filter(old(rows), RowListed(Names(ms)))
    {
      for i := 0 to |ms|
        invariant table == old(table) + Upserts(ms[..i])
        invariant rows == old(rows) && nextId == old(nextId)
      {
        assert ms[..i + 1][..i] == ms[..i];
        table := table[ms[i].name := MonitorRow(ms[i].url, i)];
      }
      assert ms[..|ms|] == ms;
      UpsertKeys(ms);
      FilterKeepsIds(rows, RowListed(Names(ms)), nextId);
      if |ms| == 0 {
        FilterNone(rows, RowListed(Names(ms)));
        table := map[];
        rows := [];
      } else {
        var names := CollectNames(ms);
        table := KeepListed(table, names);
        rows := Filter(rows, RowListed(names));
        KeepListedUpserts(old(table), ms);
      }
    }

    method List() returns (out: seq<Monitor>)
      requires Valid()
      ensures IsListing(table, out)
    {
      out := [];
      var rest := table;
      while rest != map[]
        invariant ListingSoFar(table, rest, out)
        decreases rest.Keys
      {
        var n := FirstByPosition(rest);
        ListingStep(table, rest, out, n);
        out := out + [Monitor(n, rest[n].url)];
        rest := rest - {n};
      }
    }
  }

  /** DELETE FROM monitors WHERE name NOT IN (...). */
  function KeepListed(table: MonitorTable, names: set<string>): MonitorTable {
    map n | n in table && n in names :: table[n]
  }

  lemma KeepListedUpserts(original: MonitorTable, ms: seq<Monitor>)
    ensures KeepListed(original + Upserts(ms), Names(ms)) == Upserts(ms)
  {
    UpsertKeys(ms);
    assert KeepListed(original + Upserts(ms), Names(ms)).Keys == Upserts(ms).Keys;
  }

  /** The rows picked so far come before all the rows still to be picked. */
  ghost predicate ListingSoFar(table: MonitorTable, rest: MonitorTable, out: seq<Monitor>) {
    && IsListing(table - rest.Keys, out)
    && (forall n :: n in rest ==> n in table && rest[n] == table[n])
    && (forall i, n :: 0 <= i < |out| && n in rest ==> table[out[i].name].pos <= rest[n].pos)
  }

  lemma ListingStep(table: MonitorTable, rest: MonitorTable, out: seq<Monitor>, n: string)
    requires ListingSoFar(table, rest, out) && n in rest
    requires forall k :: k in rest ==> rest[n].pos <= rest[k].pos
    ensures ListingSoFar(table, rest - {n}, out + [Monitor(n, rest[n].url)])
  {
    var more := out + [Monitor(n, rest[n].url)];
    NamesConcat(out, [Monitor(n, rest[n].url)]);
    assert Names(more) == (table - (rest - {n}).Keys).Keys;
    forall i | 0 <= i < |out| ensures out[i].name != n {
      assert out[i].name in Names(out);
    }
  }

  lemma NamesEmpty(ms: seq<Monitor>)
    ensures Names(ms) == {} <==> ms == []
  {
    if ms != [] {
      assert ms[0].name in Names(ms);
    }
  }

  lemma NamesConcat(a: seq<Monitor>, b: seq<Monitor>)
    ensures Names(a + b) == Names(a) + Names(b)
  {
  }

  /** The row that ORDER BY pos puts first. */
  method FirstByPosition(table: MonitorTable) returns (first: string)
    requires table != map[]
    ensures first in table && forall n :: n in table ==> table[first].pos <= table[n].pos
  {
    var todo := table.Keys;
    assert todo != {};
    first :| first in todo;
    while todo != {}
      invariant first in table && todo <= table.Keys
      invariant forall n :: n in table && n !in todo ==> table[first].pos <= table[n].pos
      decreases todo
    {
      var n :| n in todo;
      todo := todo - {n};
      if table[n].pos < table[first].pos {
        first := n;
      }
    }
  }

  ghost predicate IdsGrow(rows: seq<Row>, bound: nat) {
    && (forall i, j :: 0 <= i < j < |rows| ==> rows[i].id < rows[j].id)
    && (forall i :: 0 <= i < |rows| ==> rows[i].id < bound)
  }

  lemma {:induction false} FilterKeepsIds(rows: seq<Row>, p: Row -> bool, bound: nat)
    requires IdsGrow(rows, bound)
    ensures IdsGrow(Filter(rows, p), bound)
  {
    if rows != [] {
      var n := |rows| - 1;
      assert IdsGrow(rows[..n], rows[n].id);
      FilterKeepsIds(rows[..n], p, rows[n].id);
    }
  }

  lemma {:induction false} UpsertKeys(ms: seq<Monitor>)
    ensures Upserts(ms).Keys == Names(ms)
  {
    if ms != [] {
      var before := ms[..|ms| - 1];
      UpsertKeys(before);
      assert ms == before + [ms[|ms| - 1]];
    }
  }

  // ---------- Sync is independent of history ----------

  predicate IsLast(ms: seq<Monitor>, i: nat)
    requires i < |ms|
  {
    forall j :: i < j < |ms| ==> ms[j].name != ms[i].name
  }

  /** The entries from `i` on whose name is not repeated further down the list. */
  function LastOccurrences(ms: seq<Monitor>, i: nat): seq<Monitor>
    requires i <= |ms|
    decreases |ms| - i
  {
    if i == |ms| then []
    else (if IsLast(ms, i) then [ms[i]] else []) + LastOccurrences(ms, i + 1)
  }

  lemma {:induction false} UpsertsAtLast(ms: seq<Monitor>, i: nat)
    requires i < |ms| && IsLast(ms, i)
    ensures ms[i].name in Upserts(ms) && Upserts(ms)[ms[i].name] == MonitorRow(ms[i].url, i)
  {
    var n := |ms| - 1;
    if i < n {
      assert ms[n].name != ms[i].name;
      UpsertsAtLast(ms[..n], i);
    }
  }

  /** Entries of the table at positions from `i` on, in table order. */
  ghost predicate ListedFrom(table: MonitorTable, i: nat, out: seq<Monitor>) {
    && (forall k :: 0 <= k < |out| ==>
      && out[k].name in table && out[k].url == table[out[k].name].url && table[out[k].name].pos >= i)
    && (forall k, l :: 0 <= k < l < |out| ==> table[out[k].name].pos < table[out[l].name].pos)
  }

  lemma {:induction false} LastOccurrencesListed(ms: seq<Monitor>, i: nat)
    requires i <= |ms|
    ensures ListedFrom(Upserts(ms), i, LastOccurrences(ms, i))
    decreases |ms| - i
  {
    if i < |ms| {
      LastOccurrencesListed(ms, i + 1);
      var table, rest := Upserts(ms), LastOccurrences(ms, i + 1);
      if IsLast(ms, i) {
        UpsertsAtLast(ms, i);
        assert LastOccurrences(ms, i) == [ms[i]] + rest;
      } else {
        assert LastOccurrences(ms, i) == rest;
      }
    }
  }

  lemma LastOccurrencesFrom(ms: seq<Monitor>, i: nat)
    requires i <= |ms|
    ensures LastOccurrences(ms, i) ==
      if i == |ms| then []
      else if IsLast(ms, i) then [ms[i]] + LastOccurrences(ms, i + 1)
      else LastOccurrences(ms, i + 1)
  {
  }

  lemma NameListed(ms: seq<Monitor>, i: nat)
    requires i < |ms|
    ensures ms[i].name in Names(ms)
  {
  }

  lemma OneName(m: Monitor)
    ensures Names([m]) == {m.name}
  {
  }

  lemma {:induction false} LastOccurrencesNames(ms: seq<Monitor>, i: nat)
    requires i <= |ms|
    ensures Names(LastOccurrences(ms, i)) == Names(ms[i..])
    decreases |ms| - i
  {
    hide LastOccurrences, Names;
    LastOccurrencesFrom(ms, i);
    if i == |ms| {
      assert ms[i..] == [];
    } else {
      LastOccurrencesNames(ms, i + 1);
      assert ms[i..] == [ms[i]] + ms[i + 1..];
      NamesConcat([ms[i]], ms[i + 1..]);
      if IsLast(ms, i) {
        NamesConcat([ms[i]], LastOccurrences(ms, i + 1));
      } else {
        var j :| i < j < |ms| && ms[j].name == ms[i].name;
        NameListed(ms[i + 1..], j - i - 1);
        OneName(ms[i]);
      }
    }
  }

  lemma NamesWithout(out: seq<Monitor>)
    requires DistinctNames(out) && out != []
    ensures Names(out[..|out| - 1]) == Names(out) - {out[|out| - 1].name}
  {
    var n := |out| - 1;
    assert out == out[..n] + [out[n]];
    forall m | m in out[..n] ensures m.name != out[n].name {
      var i :| 0 <= i < n && out[..n][i] == m;
      assert out[i] == m;
    }
  }

  lemma LastListedIsGreatest(table: MonitorTable, out: seq<Monitor>)
    requires IsListing(table, out) && out != []
    ensures forall n :: n in table ==> table[n].pos <= table[out[|out| - 1].name].pos
    ensures IsListing(table - {out[|out| - 1].name}, out[..|out| - 1])
  {
    var last := |out| - 1;
    forall n | n in table ensures table[n].pos <= table[out[last].name].pos {
      assert n in Names(out);
      var m :| m in out && m.name == n;
      var i :| 0 <= i < |out| && out[i] == m;
    }
    NamesWithout(out);
  }

  /** With distinct positions the answer to ORDER BY pos is unique. */
  lemma {:induction false} ListingUnique(table: MonitorTable, a: seq<Monitor>, b: seq<Monitor>)
    requires IsListing(table, a) && IsListing(table, b)
    requires forall m, n :: m in table && n in table && m != n ==> table[m].pos != table[n].pos
    ensures a == b
    decreases |a|
  {
    if a == [] || b == [] {
      NamesEmpty(a);
      NamesEmpty(b);
    } else {
      var i, j := |a| - 1, |b| - 1;
      LastListedIsGreatest(table, a);
      LastListedIsGreatest(table, b);
      assert a[i].name == b[j].name;
      ListingUnique(table - {a[i].name}, a[..i], b[..j]);
      assert a == a[..i] + [a[i]] && b == b[..j] + [b[j]];
    }
  }

  lemma {:induction false} UpsertPositionsDistinct(ms: seq<Monitor>)
    ensures forall n :: n in Upserts(ms) ==> Upserts(ms)[n].pos < |ms|
    ensures forall m, n :: m in Upserts(ms) && n in Upserts(ms) && m != n ==> Upserts(ms)[m].pos != Upserts(ms)[n].pos
  {
    if ms != [] {
      UpsertPositionsDistinct(ms[..|ms| - 1]);
    }
  }

  /** Whatever the tables held before, after `Sync(ms)` the only possible answer of `List` is the
      last occurrence of every listed name, in list order. */
  lemma ListAfterSync(ms: seq<Monitor>, out: seq<Monitor>)
    ensures IsListing(Upserts(ms), out) <==> out == LastOccurrences(ms, 0)
  {
    LastOccurrencesListed(ms, 0);
    LastOccurrencesNames(ms, 0);
    UpsertKeys(ms);
    assert ms[0..] == ms;
    UpsertPositionsDistinct(ms);
    var expected := LastOccurrences(ms, 0);
    assert IsListing(Upserts(ms), expected);
    if IsListing(Upserts(ms), out) {
      ListingUnique(Upserts(ms), out, expected);
    }
  }

  lemma {:induction false} LastOccurrencesDistinct(ms: seq<Monitor>, i: nat)
    requires i <= |ms|
    ensures |LastOccurrences(ms, i)| <= |ms| - i
    ensures |LastOccurrences(ms, i)| == |ms| - i <==> (forall j :: i <= j < |ms| ==> IsLast(ms, j))
    ensures |LastOccurrences(ms, i)| == |ms| - i ==> LastOccurrences(ms, i) == ms[i..]
    decreases |ms| - i
  {
    if i < |ms| {
      LastOccurrencesDistinct(ms, i + 1);
      assert ms[i..] == [ms[i]] + ms[i + 1..];
    }
  }

  /** `List` returns the list just synced, as the memory store does, exactly when no name repeats. */
  lemma ListEchoesSync(ms: seq<Monitor>)
    ensures IsListing(Upserts(ms), ms) <==> DistinctNames(ms)
  {
    ListAfterSync(ms, ms);
    LastOccurrencesDistinct(ms, 0);
    assert ms[0..] == ms;
    if LastOccurrences(ms, 0) == ms {
      forall i, j | 0 <= i < j < |ms| ensures ms[i].name != ms[j].name {
        assert IsLast(ms, i);
      }
    }
  }
}
