/** The in-memory store: a window of sixty results per monitor over Go slices. */
module MemoryStore {
  import opened Monitoring
  import opened Sequences

  const HISTORY_SIZE: nat := 60

  type Histories = map<string, seq<Result>>

  function HistoryOf(h: Histories, name: string): seq<Result> {
    if name in h then h[name] else []
  }

  function Names(ms: seq<Monitor>): set<string> {
    set m | m in ms :: m.name
  }

  function NotBefore(cutoff: Time): Result -> bool {
    (r: Result) => r.checkedAt >= cutoff
  }

  function Saved(h: Histories, r: Result): Histories {
    h[r.monitorName := LastN(HistoryOf(h, r.monitorName) + [r], HISTORY_SIZE)]
  }

  function Pruned(h: Histories, cutoff: Time): Histories {
    map n | n in h && Filter(h[n], NotBefore(cutoff)) != [] :: Filter(h[n], NotBefore(cutoff))
  }

  function Synced(h: Histories, ms: seq<Monitor>): Histories {
    map n | n in h && n in Names(ms) :: h[n]
  }

  /** Saving keeps at most sixty results, the newest ones, in their order, and touches nobody else's. */
  lemma SavedMeans(h: Histories, r: Result)
    ensures var all := (if r.monitorName in h then h[r.monitorName] else []) + [r];
            && r.monitorName in Saved(h, r)
            && Saved(h, r)[r.monitorName] == (if |all| <= 60 then all else all[|all| - 60..])
    ensures forall n :: n != r.monitorName ==> (n in Saved(h, r) <==> n in h)
    ensures forall n :: n != r.monitorName && n in h ==> Saved(h, r)[n] == h[n]
  {
  }

  /** Pruning keeps of every monitor exactly the results not checked before the cutoff, in their order,
      and forgets the monitors of which none is left. */
  lemma PrunedMeans(h: Histories, cutoff: Time, n: string) returns (f: seq<nat>)
    requires n in h
    ensures forall i :: 0 <= i < |f| ==> f[i] < |h[n]|
    ensures forall k :: k in f <==> 0 <= k < |h[n]| && h[n][k].checkedAt >= cutoff
    ensures forall i, j :: 0 <= i < j < |f| ==> f[i] < f[j]
    ensures n in Pruned(h, cutoff) <==> f != []
    ensures f != [] ==> |Pruned(h, cutoff)[n]| == |f|
    ensures f != [] ==> forall i :: 0 <= i < |f| ==> Pruned(h, cutoff)[n][i] == h[n][f[i]]
    ensures Pruned(h, cutoff).Keys <= h.Keys
  {
    f := FilterPlaces(h[n], NotBefore(cutoff));
    hide Filter;
    forall k | 0 <= k < |h[n]| && h[n][k].checkedAt >= cutoff ensures k in f {
      assert NotBefore(cutoff)(h[n][k]);
    }
  }

  /** A reload keeps the histories of listed monitors as they are, and no others. */
  lemma SyncedMeans(h: Histories, ms: seq<Monitor>, n: string)
    ensures n in Synced(h, ms) <==> n in h && exists i :: 0 <= i < |ms| && ms[i].name == n
    ensures n in Synced(h, ms) ==> Synced(h, ms)[n] == h[n]
  {
    if i :| 0 <= i < |ms| && ms[i].name == n {
      assert ms[i] in ms;
    }
  }

  /** A Go slice: a stretch of a backing array, with room to grow up to `cap`. */
  datatype Slice = Slice(arr: array<Result>, off: nat, len: nat, cap: nat) {
    predicate InRange() {
      len <= cap && off + cap <= arr.Length
    }

    function Elements(): seq<Result>
      requires InRange()
      reads arr
    {
      arr[off..off + len]
    }
  }

  /** Go's `append` of one element: in place while there is room, else into a larger copy. */
  method Append(s: Slice, r: Result) returns (t: Slice)
    requires s.InRange()
    modifies s.arr
    ensures t.InRange() && t.len == s.len + 1
    ensures t.Elements() == old(s.Elements()) + [r]
    ensures t.arr == s.arr || fresh(t.arr)
  {
    if s.len < s.cap {
      s.arr[s.off + s.len] := r;
      t := s.(len := s.len + 1);
    } else {
      var grown := new Result[2 * s.len + 1];
      forall i | 0 <= i < s.len {
        grown[i] := s.arr[s.off + i];
      }
      grown[s.len] := r;
      t := Slice(grown, 0, s.len + 1, grown.Length);
    }
  }

  /** `h[len(h)-historySize:]` when the slice has outgrown the window. */
  method Trim(s: Slice) returns (t: Slice)
    requires s.InRange()
    ensures t.InRange() && t.arr == s.arr
    ensures t.Elements() == LastN(s.Elements(), HISTORY_SIZE)
  {
    t := s;
    if s.len > HISTORY_SIZE {
      var cut := s.len - HISTORY_SIZE;
      t := Slice(s.arr, s.off + cut, HISTORY_SIZE, s.cap - cut);
    }
  }

  /** The compaction `kept := h[:0]`: survivors are written over the front of the very array being
      read, without losing or reordering any. */
  method CompactInPlace(h: Slice, cutoff: Time) returns (kept: Slice)
    requires h.InRange()
    modifies h.arr
    ensures kept.InRange() && kept.arr == h.arr && kept.off == h.off
    ensures kept.Elements() == Filter(old(h.Elements()), NotBefore(cutoff))
  {
    ghost var original := h.Elements();
    hide Compacting, Filter;
    var arr, off, n := h.arr, h.off, 0;
    var i := 0;
    CompactStart(arr[..], off, original, cutoff);
    while i < h.len
      invariant n <= i <= h.len
      invariant Compacting(arr[..], off, n, i, original, cutoff)
    {
      CompactStep(arr[..], off, n, i, original, cutoff);
      var r := arr[off + i];
      if !(r.checkedAt < cutoff) {
        arr[off + n] := r;
        n := n + 1;
      }
      i := i + 1;
    }
    CompactEnd(arr[..], off, n, original, cutoff);
    kept := h.(len := n);
    assert kept.Elements() == arr[..][off..off + n];
  }

  /** Halfway through: the first `n` cells hold the survivors of the first `i` results, and the
      results still to be read are untouched. */
  ghost predicate Compacting(mem: seq<Result>, off: nat, n: nat, i: nat, original: seq<Result>, cutoff: Time) {
    && n <= i <= |original| && off + |original| <= |mem|
    && mem[off..off + n] == Filter(original[..i], NotBefore(cutoff))
    && mem[off + i..off + |original|] == original[i..]
  }

  lemma CompactStart(mem: seq<Result>, off: nat, original: seq<Result>, cutoff: Time)
    requires off + |original| <= |mem| && original == mem[off..off + |original|]
    ensures Compacting(mem, off, 0, 0, original, cutoff)
  {
  }

  lemma CompactEnd(mem: seq<Result>, off: nat, n: nat, original: seq<Result>, cutoff: Time)
    requires Compacting(mem, off, n, |original|, original, cutoff)
    ensures n <= |original| && off + n <= |mem| && mem[off..off + n] == Filter(original, NotBefore(cutoff))
  {
    assert original[..|original|] == original;
  }

  lemma CompactStep(mem: seq<Result>, off: nat, n: nat, i: nat, original: seq<Result>, cutoff: Time)
    requires Compacting(mem, off, n, i, original, cutoff) && i < |original|
    ensures var r := mem[off + i];
            if r.checkedAt < cutoff then Compacting(mem, off, n, i + 1, original, cutoff)
            else Compacting(mem[off + n := r], off, n + 1, i + 1, original, cutoff)
  {
    var r := mem[off + i];
    assert r == mem[off + i..off + |original|][0] == original[i];
    KeepOrDrop(original, i, cutoff);
    assert mem[off + i + 1..off + |original|] == mem[off + i..off + |original|][1..] == original[i + 1..];
    var after := mem[off + n := r];
    assert after[off + i + 1..off + |original|] == mem[off + i + 1..off + |original|];
    assert after[off..off + n + 1] == mem[off..off + n] + [r];
  }

  lemma KeepOrDrop(rs: seq<Result>, i: nat, cutoff: Time)
    requires i < |rs|
    ensures Filter(rs[..i + 1], NotBefore(cutoff))
      == Filter(rs[..i], NotBefore(cutoff)) + (if rs[i].checkedAt >= cutoff then [rs[i]] else [])
  {
    assert rs[..i + 1] == rs[..i] + [rs[i]];
    FilterAppend(rs[..i], rs[i], NotBefore(cutoff));
  }

  /** Pruning in progress, in whatever order the entries are visited: those in `todo` are as they
      were, all others are done. */
  ghost predicate PrunedExcept(now: Histories, before: Histories, todo: set<string>, cutoff: Time) {
    && (forall n :: n in now ==> n in before)
    && (forall n :: n in before ==>
      if n in todo then n in now && now[n] == before[n]
      else if Filter(before[n], NotBefore(cutoff)) == [] then n !in now
      else n in now && now[n] == Filter(before[n], NotBefore(cutoff)))
  }

  function WithEntry(h: Histories, name: string, kept: seq<Result>): Histories {
    if kept == [] then h - {name} else h[name := kept]
  }

  lemma PruningStep(now: Histories, before: Histories, todo: set<string>, name: string, cutoff: Time)
    requires PrunedExcept(now, before, todo, cutoff) && name in todo && todo <= before.Keys
    ensures name in now && now[name] == before[name]
    ensures PrunedExcept(WithEntry(now, name, Filter(before[name], NotBefore(cutoff))), before, todo - {name}, cutoff)
  {
  }

  lemma PruningDone(now: Histories, before: Histories, cutoff: Time)
    requires PrunedExcept(now, before, {}, cutoff)
    ensures now == Pruned(before, cutoff)
  {
    assert now.Keys == Pruned(before, cutoff).Keys;
  }

  ghost predicate SyncedExcept(now: Histories, before: Histories, todo: set<string>, keep: set<string>) {
    && (forall n :: n in now ==> n in before && now[n] == before[n])
    && (forall n :: n in before ==> (n in now <==> n in todo || n in keep))
  }

  method CollectNames(ms: seq<Monitor>) returns (keep: set<string>)
    ensures keep == Names(ms)
  {
    keep := {};
    for i := 0 to |ms|
      invariant keep == Names(ms[..i])
    {
      assert ms[..i + 1] == ms[..i] + [ms[i]];
      keep := keep + {ms[i].name};
    }
    assert ms[..|ms|] == ms;
  }

  class Memory {
    var monitors: array<Monitor>
    var history: map<string, Slice>
    ghost var contents: Histories
    ghost var backing: set<array<Result>>

    /** Slices stay inside their arrays, no two monitors share one, and `contents` is what the
        slices show. */
    ghost predicate Valid()
      reads this, backing
    {
      (forall n :: n in history <==> n in contents) && ValidOutside({})
    }

    ghost predicate ValidOutside(exempt: set<string>)
      reads this, backing
    {
      && (forall n :: n in history && n !in exempt ==>
        && n in contents
        && history[n].arr in backing
        && history[n].InRange()
        && history[n].Elements() == contents[n])
      && (forall m, n :: m in history && n in history && m !in exempt && n !in exempt && m != n ==>
        history[m].arr != history[n].arr)
    }

    /** Changing only what is filed under `name` keeps all other entries sound. */
    twostate lemma OthersKept(name: string)
      requires old(ValidOutside({name})) && old(backing) <= backing && unchanged(old(backing))
      requires forall n :: n in history && n != name ==> n in old(history) && history[n] == old(history)[n]
      requires forall n :: n in old(contents) && n != name ==> n in contents && contents[n] == old(contents)[n]
      ensures ValidOutside({name})
    {
    }

    lemma EntryCompletes(name: string)
      requires ValidOutside({name})
      requires name in history ==>
        && name in contents && history[name].arr in backing
        && history[name].InRange() && history[name].Elements() == contents[name]
        && forall n :: n in history && n != name ==> history[n].arr != history[name].arr
      ensures ValidOutside({})
    {
    }

    /** Point `name` at a slice whose array no other monitor uses. */
    method Put(name: string, s: Slice)
      requires s.InRange() && ValidOutside({name})
      requires forall n :: n != name ==> (n in history <==> n in contents)
      requires forall n :: n in history && n != name ==> history[n].arr != s.arr
      modifies this
      ensures Valid() && backing == old(backing) + {s.arr} && monitors == old(monitors)
      ensures contents == old(contents)[name := s.Elements()]
    {
      hide ValidOutside;
      history := history[name := s];
      contents := contents[name := s.Elements()];
      backing := backing + {s.arr};
      OthersKept(name);
      EntryCompletes(name);
    }

    method Remove(name: string)
      requires ValidOutside({name}) && forall n :: n != name ==> (n in history <==> n in contents)
      modifies this
      ensures Valid() && backing == old(backing) && monitors == old(monitors)
      ensures contents == old(contents) - {name}
    {
      hide ValidOutside;
      history := history - {name};
      contents := contents - {name};
      OthersKept(name);
      EntryCompletes(name);
    }

    constructor (seed: array<Monitor>)
      ensures Valid() && contents == map[] && monitors == seed && backing == {}
    {
      monitors := seed;
      history := map[];
      contents := map[];
      backing := {};
    }

    /** A copy of the list; the list itself stays the slice that `Sync` was given. */
    method List() returns (out: array<Monitor>)
      ensures fresh(out) && out[..] == monitors[..]
    {
      out := new Monitor[monitors.Length];
      forall i | 0 <= i < monitors.Length {
        out[i] := monitors[i];
      }
    }

    /** A copy in an array of its own. */
    method History(name: string) returns (out: array<Result>)
      requires Valid()
      ensures fresh(out)
      ensures out[..] == HistoryOf(contents, name)
    {
      if name in history {
        var h := history[name];
        out := new Result[h.len];
        forall i | 0 <= i < h.len {
          out[i] := h.arr[h.off + i];
        }
        assert out[..] == h.Elements();
      } else {
        out := new Result[0];
      }
    }

    /** Writing into an array that only `name` may use leaves all other entries as they were. */
    twostate lemma OthersUntouched(name: string, new changed: array<Result>)
      requires old(Valid()) && unchanged(this)
      requires forall n :: n in history && n != name ==> history[n].arr != changed
      requires forall a :: a in backing && a != changed ==> a[..] == old(a[..])
      ensures ValidOutside({name})
    {
      forall n | n in history && n != name ensures history[n].Elements() == contents[n] {
        var s := history[n];
        assert s.arr[..] == old(s.arr[..]);
        assert s.Elements() == s.arr[..][s.off..s.off + s.len];
        assert old(s.Elements()) == old(s.arr[..])[s.off..s.off + s.len];
      }
    }

    /** The listed monitors are not part of the history's invariant. */
    twostate lemma SameEntries()
      requires old(Valid()) && unchanged(`history) && unchanged(`contents) && unchanged(`backing) && unchanged(backing)
      ensures Valid()
    {
    }

    lemma EntriesOutside(name: string)
      requires Valid()
      ensures ValidOutside({name})
    {
    }

    lemma OthersApart(name: string, a: array<Result>)
      requires Valid() && (name in history ==> history[name].arr == a) && (name !in history ==> a !in backing)
      ensures forall n :: n in history && n != name ==> history[n].arr != a
      ensures name in history ==> history[name].InRange() && history[name].Elements() == contents[name] && a in backing
    {
    }

    /** The monitor's slice, or an empty one of its own. */
    method Current(name: string) returns (s: Slice)
      requires Valid()
      ensures s.InRange() && s.Elements() == HistoryOf(contents, name)
      ensures if name in history then s == history[name] else fresh(s.arr)
    {
      if name in history {
        s := history[name];
      } else {
        var none := new Result[0];
        s := Slice(none, 0, 0, 0);
      }
    }

    method Save(r: Result)
      requires Valid()
      modifies this, backing
      ensures Valid() && fresh(backing - old(backing))
      ensures contents == Saved(old(contents), r) && monitors == old(monitors)
    {
      hide ValidOutside;
      var name := r.monitorName;
      var before := Current(name);
      OthersApart(name, before.arr);
      var after := Append(before, r);
      OthersUntouched(name, before.arr);
      var kept := Trim(after);
      Put(name, kept);
    }

    method PruneEntry(name: string, cutoff: Time)
      requires Valid() && name in history
      modifies this, backing
      ensures Valid() && backing == old(backing) && monitors == old(monitors)
      ensures contents == WithEntry(old(contents), name, Filter(old(contents)[name], NotBefore(cutoff)))
    {
      hide ValidOutside;
      OthersApart(name, history[name].arr);
      var kept := CompactInPlace(history[name], cutoff);
      OthersUntouched(name, kept.arr);
      if kept.len == 0 {
        Remove(name);
      } else {
        Put(name, kept);
      }
    }

    method Prune(cutoff: Time)
      requires Valid()
      modifies this, backing
      ensures Valid() && backing == old(backing)
      ensures contents == Pruned(old(contents), cutoff) && monitors == old(monitors)
    {
      ghost var before := contents;
      var todo := history.Keys;
      while todo != {}
        invariant Valid() && backing == old(backing) && monitors == old(monitors)
        invariant todo <= before.Keys && PrunedExcept(contents, before, todo, cutoff)
        decreases todo
      {
        var name :| name in todo;
        PruningStep(contents, before, todo, name, cutoff);
        PruneEntry(name, cutoff);
        todo := todo - {name};
      }
      PruningDone(contents, before, cutoff);
    }

    method Sync(ms: array<Monitor>)
      requires Valid()
      modifies this
      ensures Valid() && backing == old(backing)
      ensures contents == Synced(old(contents), ms[..]) && monitors == ms
    {
      hide ValidOutside;
      monitors := ms;
      SameEntries();
      var keep := CollectNames(ms[..]);
      ghost var before := contents;
      var todo := history.Keys;
      while todo != {}
        invariant Valid() && backing == old(backing) && monitors == ms
        invariant todo <= before.Keys && SyncedExcept(contents, before, todo, keep)
        decreases todo
      {
        var name :| name in todo;
        if name !in keep {
          EntriesOutside(name);
          Remove(name);
        }
        todo := todo - {name};
      }
      assert contents == Synced(before, ms[..]);
    }
  }
}
