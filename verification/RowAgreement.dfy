/** The daemon on its row store: the writes of a whole life, and what the rows show of it. */
module RowAgreement {
  import opened Monitoring
  import opened Sequences
  import opened StateMachine
  import opened Codec
  import opened RowStore
  import opened Dashboard
  import opened ProbeBatch
  import opened Probe
  import opened Agreement
  import Interleaving
  import MemoryStore
  import Stores = Refinement

  /** What one event writes to the store. */
  function Writes(d: Daemon, e: Happening): seq<Stores.Op>
    requires CanHappen(d, e)
  {
    match e
    case Sync(ms) => [Stores.Sync(ms)]
    case Prune(t) => [Stores.Prune(t)]
    case BatchStep(l) =>
      if l.StageDone? && d.phase.batch.progress[d.phase.batch.workers[l.w].job].stage.Saving?
      then [Stores.Save(d.phase.batch.progress[d.phase.batch.workers[l.w].job].result)] else []
    case _ => []
  }

  function WritesOf(d: Daemon, es: seq<Happening>): seq<Stores.Op>
    requires Life(d, es).Some?
  {
    if es == [] then []
    else WritesOf(d, es[..|es| - 1]) + Writes(Life(d, es[..|es| - 1]).value, es[|es| - 1])
  }

  // ---------- a life is a run of the stores ----------

  ghost predicate Mirrors(ops: seq<Stores.Op>, d: Daemon) {
    && Stores.MemRun(ops) == Stores.Mem(d.list, d.world.history)
    && Stores.DistinctLists(ops)
  }

  lemma StageHistory(w: World, stage: Stage, r: Result)
    ensures DoStage(w, stage, r).history == if stage.Saving? then MemoryStore.Saved(w.history, r) else w.history
  {
  }

  /** An event changes the daemon's store by what it writes. */
  lemma WritesTakeEffect(d: Daemon, e: Happening)
    requires CanHappen(d, e)
    ensures var before, t := Stores.Mem(d.list, d.world.history), Happen(d, e);
            Stores.Mem(t.list, t.world.history) ==
              if Writes(d, e) == [] then before else Stores.MemAfter(before, Writes(d, e)[0])
    ensures |Writes(d, e)| <= 1
    ensures Writes(d, e) != [] && Writes(d, e)[0].Sync? ==> DistinctNames(Writes(d, e)[0].list)
  {
    hide DoStage, MemoryStore.Saved, MemoryStore.Synced, MemoryStore.Pruned;
    if e.BatchStep? && e.step.StageDone? {
      var p := d.phase.batch.progress[d.phase.batch.workers[e.step.w].job];
      StageHistory(d.world, p.stage, p.result);
    }
  }

  lemma MirrorsOn(ops: seq<Stores.Op>, d: Daemon, e: Happening)
    requires Mirrors(ops, d) && CanHappen(d, e)
    ensures Mirrors(ops + Writes(d, e), Happen(d, e))
  {
    hide Writes, CanHappen, Happen, Stores.MemAfter;
    WritesTakeEffect(d, e);
    if Writes(d, e) == [] {
      assert ops + Writes(d, e) == ops;
    } else {
      var w := Writes(d, e)[0];
      assert (ops + Writes(d, e))[..|ops|] == ops && (ops + Writes(d, e))[|ops|] == w;
    }
  }

  /** All results saved under one name, in the order of saving. */
  function SavedOf(ops: seq<Stores.Op>, name: string): seq<Result> {
    if ops == [] then []
    else
      var op := ops[|ops| - 1];
      SavedOf(ops[..|ops| - 1], name) + (if op.Save? && op.result.monitorName == name then [op.result] else [])
  }

  lemma {:induction false} SavedOfConcat(ops: seq<Stores.Op>, more: seq<Stores.Op>, name: string)
    ensures SavedOf(ops + more, name) == SavedOf(ops, name) + SavedOf(more, name)
  {
    if more == [] {
      assert ops + more == ops;
    } else {
      SavedOfConcat(ops, more[..|more| - 1], name);
      assert (ops + more)[..|ops + more| - 1] == ops + more[..|more| - 1];
    }
  }

  /** Saved, but not yet observed. */
  predicate Ahead(job: Progress) {
    job.Running? && job.stage.Debouncing?
  }

  function WithGap(seen: seq<Result>, job: Progress): seq<Result> {
    if Ahead(job) then seen + [job.result] else seen
  }

  /** Everything saved for `n` is what the machine observed of it, and the result in the gap. */
  ghost function Logged(d: Daemon, n: string): seq<Result> {
    WithGap(Seen(d.observed, n), JobOf(d.phase, n))
  }

  lemma OwnStageLogged(d: Daemon, v: nat)
    requires BatchSound(d) && CanHappen(d, BatchStep(StageDone(v)))
    ensures var n := d.phase.names[d.phase.batch.workers[v].job];
            Logged(Happen(d, BatchStep(StageDone(v))), n)
              == Logged(d, n) + SavedOf(Writes(d, BatchStep(StageDone(v))), n)
  {
    hide DoStage, JobOf;
    var i := d.phase.batch.workers[v].job;
    var e := Happen(d, BatchStep(StageDone(v)));
    BatchStepSound(d, StageDone(v));
    JobAt(d.phase, i);
    JobAt(e.phase, i);
    assert Writes(d, BatchStep(StageDone(v)))[..0] == [];
  }

  lemma OtherStageLogged(d: Daemon, v: nat, n: string)
    requires BatchSound(d) && CanHappen(d, BatchStep(StageDone(v))) && n != d.phase.names[d.phase.batch.workers[v].job]
    ensures Logged(Happen(d, BatchStep(StageDone(v))), n) == Logged(d, n)
    ensures SavedOf(Writes(d, BatchStep(StageDone(v))), n) == []
  {
    hide DoStage, JobOf;
    JobUnchanged(d, StageDone(v), n);
  }

  lemma HandoverLogged(d: Daemon, l: Label, n: string)
    requires BatchSound(d) && CanHappen(d, BatchStep(l)) && (l.Rendezvous? || l.ProbeReturns?)
    ensures Logged(Happen(d, BatchStep(l)), n) == Logged(d, n)
  {
    hide JobOf;
    var i := if l.Rendezvous? then l.i else d.phase.batch.workers[l.w].job;
    if n == d.phase.names[i] {
      BatchStepSound(d, l);
      JobAt(d.phase, i);
      JobAt(Happen(d, BatchStep(l)).phase, i);
    } else {
      JobUnchanged(d, l, n);
    }
  }

  lemma QuietStepLogged(d: Daemon, l: Label, n: string)
    requires BatchSound(d) && CanHappen(d, BatchStep(l)) && !l.StageDone? && !l.Rendezvous? && !l.ProbeReturns?
    ensures Logged(Happen(d, BatchStep(l)), n) == Logged(d, n)
  {
    hide JobOf;
    if l.Return? {
      ReturnLeavesNoJob(d, n);
      NoJob(Happen(d, BatchStep(l)).phase, n);
    } else {
      JobUnchanged(d, l, n);
    }
  }

  lemma JobsRemain(d: Daemon, e: Happening, n: string)
    requires BatchSound(d) && CanHappen(d, e) && !e.BatchStep?
    ensures Ahead(JobOf(Happen(d, e).phase, n)) <==> Ahead(JobOf(d.phase, n))
    ensures Ahead(JobOf(d.phase, n)) ==> JobOf(Happen(d, e).phase, n) == JobOf(d.phase, n)
  {
    var after := Happen(d, e).phase;
    if e.Cancel? && d.phase.InBatch? && n in d.phase.names {
      var i :| 0 <= i < |d.phase.names| && d.phase.names[i] == n;
      JobAt(d.phase, i);
      JobAt(after, i);
    } else if e.BeginBatch? && n in after.names {
      var i :| 0 <= i < |after.names| && after.names[i] == n;
      EventSound(d, BeginBatch);
      JobAt(after, i);
    }
  }

  lemma LoggedOn(d: Daemon, e: Happening, n: string)
    requires BatchSound(d) && CanHappen(d, e)
    ensures Logged(Happen(d, e), n) == Logged(d, n) + SavedOf(Writes(d, e), n)
  {
    if !e.BatchStep? {
      JobsRemain(d, e, n);
      hide JobOf;
    } else if e.step.StageDone? {
      hide JobOf, Happen;
      if n == d.phase.names[d.phase.batch.workers[e.step.w].job] {
        OwnStageLogged(d, e.step.w);
      } else {
        OtherStageLogged(d, e.step.w, n);
      }
    } else if e.step.Rendezvous? || e.step.ProbeReturns? {
      HandoverLogged(d, e.step, n);
    } else {
      QuietStepLogged(d, e.step, n);
    }
  }

  lemma {:induction false} LifeLogged(pool: nat, now: Time, es: seq<Happening>, n: string)
    requires Life(Fresh(pool, now), es).Some?
    ensures var d, ops := Life(Fresh(pool, now), es).value, WritesOf(Fresh(pool, now), es);
            Mirrors(ops, d) && SavedOf(ops, n) == Logged(d, n)
  {
    if es != [] {
      hide BatchSound, AgreesOn, CanHappen, Happen, Mirrors, Logged, SavedOf, Writes;
      var before := es[..|es| - 1];
      var m, e, ops := Life(Fresh(pool, now), before).value, es[|es| - 1], WritesOf(Fresh(pool, now), before);
      LifeLogged(pool, now, before, n);
      LifeAgrees(pool, now, before, n);
      LoggedOn(m, e, n);
      WritesTakeEffect(m, e);
      SavedOfConcat(ops, Writes(m, e), n);
      MirrorsOn(ops, m, e);
    }
  }

  // ---------- the scheduler supplies what the stores rely on ----------

  lemma {:induction false} SavedListed(ops: seq<Stores.Op>, i: nat)
    requires i < |ops| && ops[i].Save?
    ensures ops[i].result in SavedOf(ops, ops[i].result.monitorName)
  {
    if i < |ops| - 1 {
      SavedListed(ops[..|ops| - 1], i);
    }
  }

  lemma {:induction false} SortedIsChronological(ops: seq<Stores.Op>)
    requires forall n :: Stores.Sorted(SavedOf(ops, n))
    ensures Stores.Chronological(ops)
  {
    if ops != [] {
      var last := |ops| - 1;
      var before := ops[..last];
      forall n ensures Stores.Sorted(SavedOf(before, n)) {
        assert Stores.Sorted(SavedOf(ops, n));
        assert forall i :: 0 <= i < |SavedOf(before, n)| ==> SavedOf(ops, n)[i] == SavedOf(before, n)[i];
      }
      SortedIsChronological(before);
      forall i | 0 <= i < last && ops[i].Save? && ops[last].Save?
        && ops[i].result.monitorName == ops[last].result.monitorName
        ensures ops[i].result.checkedAt <= ops[last].result.checkedAt
      {
        SavedListed(before, i);
        var n := ops[last].result.monitorName;
        var k :| 0 <= k < |SavedOf(before, n)| && SavedOf(before, n)[k] == ops[i].result;
        assert SavedOf(ops, n) == SavedOf(before, n) + [ops[last].result];
        assert Stores.Sorted(SavedOf(ops, n)) && SavedOf(ops, n)[k] == ops[i].result;
        assert SavedOf(ops, n)[|SavedOf(before, n)|] == ops[last].result;
      }
      forall i, j | 0 <= i < j < |ops| && ops[i].Save? && ops[j].Save?
        && ops[i].result.monitorName == ops[j].result.monitorName
        ensures ops[i].result.checkedAt <= ops[j].result.checkedAt
      {
        if j < last {
          assert before[i] == ops[i] && before[j] == ops[j];
        }
      }
    }
  }

  lemma LoggedSorted(d: Daemon, n: string)
    requires AgreesOn(d, n)
    ensures Stores.Sorted(Logged(d, n))
  {
    hide JobOf;
    if Ahead(JobOf(d.phase, n)) {
      SortedAppend(Seen(d.observed, n), JobOf(d.phase, n).result, d.now);
    }
  }

  /** Whatever batches, reloads and sweeps interleave, the daemon's writes are chronological per
      monitor and its lists distinct; and performed on a memory store they lead to the daemon's own. */
  lemma LifeIsRun(pool: nat, now: Time, es: seq<Happening>)
    requires Life(Fresh(pool, now), es).Some?
    ensures var d, ops := Life(Fresh(pool, now), es).value, WritesOf(Fresh(pool, now), es);
            && Stores.Chronological(ops) && Stores.DistinctLists(ops)
            && Stores.MemRun(ops) == Stores.Mem(d.list, d.world.history)
  {
    hide AgreesOn, Logged, Stores.Sorted, Stores.Chronological, WritesOf, Life;
    var d, ops := Life(Fresh(pool, now), es).value, WritesOf(Fresh(pool, now), es);
    LifeLogged(pool, now, es, "");
    forall n ensures Stores.Sorted(SavedOf(ops, n)) {
      LifeLogged(pool, now, es, n);
      LifeAgrees(pool, now, es, n);
      LoggedSorted(d, n);
    }
    SortedIsChronological(ops);
  }

  // ---------- where the results come from ----------

  /** Every result the trackers have seen, or a probe has in hand, satisfies `p`. */
  ghost predicate AllResults(d: Daemon, p: Result -> bool) {
    && (forall n :: n in d.observed ==> forall i :: 0 <= i < |d.observed[n]| ==> p(d.observed[n][i]))
    && (d.phase.InBatch? ==> AllRunning(d.phase.batch.progress, p))
  }

  ghost predicate AllRunning(progress: seq<Progress>, p: Result -> bool) {
    forall i :: 0 <= i < |progress| && progress[i].Running? ==> p(progress[i].result)
  }

  lemma RunningStays(b: Batch, l: Label, p: Result -> bool)
    requires Enabled(b, l) && AllRunning(b.progress, p) && (l.ProbeReturns? ==> p(l.result))
    ensures AllRunning(Next(b, l).progress, p)
  {
  }

  lemma SeenStays(d: Daemon, l: Label, p: Result -> bool)
    requires CanHappen(d, BatchStep(l)) && AllResults(d, p)
    ensures var observed := Happen(d, BatchStep(l)).observed;
            forall n :: n in observed ==> forall i :: 0 <= i < |observed[n]| ==> p(observed[n][i])
  {
    hide DoStage, Next, Interleaving.Effect;
  }

  lemma ResultsStay(d: Daemon, e: Happening, p: Result -> bool)
    requires CanHappen(d, e) && AllResults(d, p)
    requires e.BatchStep? && e.step.ProbeReturns? ==> p(e.step.result)
    ensures AllResults(Happen(d, e), p)
  {
    if e.BatchStep? {
      RunningStays(d.phase.batch, e.step, p);
      SeenStays(d, e.step, p);
      hide DoStage, Next, Enabled, AllRunning, Interleaving.Effect;
    } else {
      hide DoStage, Enabled, Next, Initial;
      QuietResults(d, e, p);
    }
  }

  lemma QuietResults(d: Daemon, e: Happening, p: Result -> bool)
    requires CanHappen(d, e) && AllResults(d, p) && !e.BatchStep?
    ensures AllResults(Happen(d, e), p)
  {
    if e.Cancel? && d.phase.InBatch? {
      assert Next(d.phase.batch, Label.Cancel).progress == d.phase.batch.progress;
    }
  }

  /** Every probe of the life returns what the HTTP prober can return. */
  ghost predicate HonestlyProbed(es: seq<Happening>) {
    forall i :: 0 <= i < |es| && es[i].BatchStep? && es[i].step.ProbeReturns? ==> ProberShaped(es[i].step.result)
  }

  lemma {:induction false} LifeIsProbed(pool: nat, now: Time, es: seq<Happening>)
    requires Life(Fresh(pool, now), es).Some? && HonestlyProbed(es)
    ensures AllResults(Life(Fresh(pool, now), es).value, r => ProberShaped(r))
  {
    if es != [] {
      hide CanHappen, Happen, AllResults;
      var n := |es| - 1;
      LifeIsProbed(pool, now, es[..n]);
      ResultsStay(Life(Fresh(pool, now), es[..n]).value, es[n], r => ProberShaped(r));
    }
  }

  /** Nothing is checked before the boot. */
  lemma {:induction false} LifeIsLater(pool: nat, now: Time, es: seq<Happening>)
    requires Life(Fresh(pool, now), es).Some?
    ensures var d := Life(Fresh(pool, now), es).value;
            d.now >= now && AllResults(d, MemoryStore.NotBefore(now))
  {
    if es != [] {
      hide AllResults;
      var n := |es| - 1;
      LifeIsLater(pool, now, es[..n]);
      ResultsStay(Life(Fresh(pool, now), es[..n]).value, es[n], MemoryStore.NotBefore(now));
    }
  }

  // ---------- what the rows show ----------

  /** Reloads drop a monitor's rows whole and sweeps drop the oldest: what is left is the recent end
      of everything saved. */
  lemma {:induction false} OwnIsSuffixOfSaved(ops: seq<Stores.Op>, name: string)
    requires Stores.Chronological(ops)
    ensures IsSuffix(Stores.Own(ops, name), SavedOf(ops, name))
  {
    if ops == [] {
      assert Stores.Own(ops, name) == [];
    } else {
      hide Stores.Chronological, Stores.Own, Stores.Sorted, IsSuffix, Filter, SavedOf;
      var n := |ops| - 1;
      Stores.ChronologicalBefore(ops, n);
      OwnIsSuffixOfSaved(ops[..n], name);
      Stores.OwnSorted(ops[..n], name);
      Stores.OwnStep(ops, name);
      SavedOfLast(ops, name);
      StillSuffix(Stores.Own(ops[..n], name), SavedOf(ops[..n], name), ops[n], name);
    }
  }

  lemma SavedOfLast(ops: seq<Stores.Op>, name: string)
    requires ops != []
    ensures var op := ops[|ops| - 1];
            SavedOf(ops, name) ==
              if op.Save? && op.result.monitorName == name then SavedOf(ops[..|ops| - 1], name) + [op.result]
              else SavedOf(ops[..|ops| - 1], name)
  {
  }

  lemma StillSuffix(own: seq<Result>, saved: seq<Result>, op: Stores.Op, name: string)
    requires Stores.Sorted(own) && IsSuffix(own, saved)
    ensures op.Save? && op.result.monitorName == name ==> IsSuffix(own + [op.result], saved + [op.result])
    ensures op.Sync? ==> IsSuffix([], saved)
    ensures op.Prune? ==> IsSuffix(Filter(own, Stores.SecondNotBefore(op.cutoff)), saved)
  {
    hide IsSuffix, Stores.Sorted, Filter;
    match op
    case Save(r) => SuffixAppend(own, saved, r);
    case Sync(_) => NothingIsSuffix(saved);
    case Prune(t) => SweptIsSuffix(own, saved, t);
  }

  lemma NothingIsSuffix(s: seq<Result>)
    ensures IsSuffix([], s)
  {
  }

  lemma SweptIsSuffix(own: seq<Result>, saved: seq<Result>, cutoff: Time)
    requires Stores.Sorted(own) && IsSuffix(own, saved)
    ensures IsSuffix(Filter(own, Stores.SecondNotBefore(cutoff)), saved)
  {
    hide Stores.Sorted, Filter;
    Stores.SortedUpward(own, cutoff);
    var k := FilterUpward(own, Stores.SecondNotBefore(cutoff));
    SuffixTransitive(own[k..], own, saved);
  }

  lemma SuffixMapped(t: seq<Result>, s: seq<Result>)
    requires IsSuffix(t, s)
    ensures IsSuffix(Map(Stored, t), Map(Stored, s))
  {
    hide Stored;
  }

  lemma StoredUp(r: Result)
    requires !BarFlips(r)
    ensures Stored(r).IsUp() == r.IsUp()
  {
    hide Stored, BarFlips, CheckOf;
    CheckSurvivesStorage(r);
    UpShown(r);
    UpShown(Stored(r));
  }

  /** Three stored results, none of whose bars flipped, say what the three original ones said. */
  lemma VerdictOfStored(rows: seq<Result>, seen: seq<Result>)
    requires IsSuffix(rows, Map(Stored, seen)) && |rows| >= FAIL_THRESHOLD
    requires forall r :: r in LastN(seen, FAIL_THRESHOLD) ==> !BarFlips(r)
    ensures Verdict(Ups(seen)) == if true in Ups(rows)[|rows| - 3..] then Up else Down
  {
    hide Stored, BarFlips;
    var recent := LastN(seen, FAIL_THRESHOLD);
    forall i | 0 <= i < 3 ensures Ups(rows)[|rows| - 3..][i] == LastN(Ups(seen), FAIL_THRESHOLD)[i] {
      assert rows[|rows| - 3 + i] == Stored(seen[|seen| - 3 + i]);
      assert recent[i] == seen[|seen| - 3 + i];
      StoredUp(recent[i]);
    }
    assert Ups(rows)[|rows| - 3..] == LastN(Ups(seen), FAIL_THRESHOLD);
  }

  // ---------- a store that survives restarts ----------

  /** What was written before the boot, by earlier lives whose clocks were not ahead of this one. */
  ghost predicate Earlier(earlier: seq<Stores.Op>, now: Time) {
    && Stores.Chronological(earlier)
    && (forall i :: 0 <= i < |earlier| && earlier[i].Save? ==> earlier[i].result.checkedAt <= now)
  }

  lemma {:induction false} SavedFrom(ops: seq<Stores.Op>, n: string, x: Result)
    requires x in SavedOf(ops, n)
    ensures x.monitorName == n && exists i :: 0 <= i < |ops| && ops[i] == Stores.Save(x)
  {
    var last := |ops| - 1;
    if x in SavedOf(ops[..last], n) {
      SavedFrom(ops[..last], n, x);
      var i :| 0 <= i < last && ops[..last][i] == Stores.Save(x);
      assert ops[i] == Stores.Save(x);
    } else {
      assert ops[last] == Stores.Save(x);
    }
  }

  lemma {:induction false} ChronologicalIsSorted(ops: seq<Stores.Op>, n: string)
    requires Stores.Chronological(ops)
    ensures Stores.Sorted(SavedOf(ops, n))
  {
    if ops != [] {
      var last := |ops| - 1;
      Stores.ChronologicalBefore(ops, last);
      ChronologicalIsSorted(ops[..last], n);
      forall x | x in SavedOf(ops[..last], n) && ops[last].Save? && ops[last].result.monitorName == n
        ensures x.checkedAt <= ops[last].result.checkedAt
      {
        SavedFrom(ops[..last], n, x);
        var i :| 0 <= i < last && ops[..last][i] == Stores.Save(x);
        assert ops[i].result == x;
      }
    }
  }

  lemma SortedConcat(a: seq<Result>, b: seq<Result>, t: Time)
    requires Stores.Sorted(a) && Stores.Sorted(b)
    requires forall i :: 0 <= i < |a| ==> a[i].checkedAt <= t
    requires forall i :: 0 <= i < |b| ==> b[i].checkedAt >= t
    ensures Stores.Sorted(a + b)
  {
  }

  lemma LoggedLater(d: Daemon, n: string, now: Time)
    requires BatchSound(d) && AllResults(d, MemoryStore.NotBefore(now))
    ensures forall i :: 0 <= i < |Logged(d, n)| ==> Logged(d, n)[i].checkedAt >= now
  {
    hide JobOf;
    var job := JobOf(d.phase, n);
    if Ahead(job) {
      if d.phase.InBatch? && n in d.phase.names {
        var i :| 0 <= i < |d.phase.names| && d.phase.names[i] == n;
        JobAt(d.phase, i);
        assert MemoryStore.NotBefore(now)(job.result);
      } else {
        NoJob(d.phase, n);
      }
    }
    var seen := Seen(d.observed, n);
    forall i | 0 <= i < |seen| ensures seen[i].checkedAt >= now {
      assert MemoryStore.NotBefore(now)(seen[i]);
    }
  }

  lemma SavedLogged(pool: nat, now: Time, earlier: seq<Stores.Op>, es: seq<Happening>, n: string)
    requires Life(Fresh(pool, now), es).Some? && Earlier(earlier, now)
    ensures var d, ops := Life(Fresh(pool, now), es).value, earlier + WritesOf(Fresh(pool, now), es);
            SavedOf(ops, n) == SavedOf(earlier, n) + Logged(d, n) && Stores.Sorted(SavedOf(ops, n))
  {
    hide AllResults, WritesOf, Life, Logged, BatchSound, AgreesOn, Stores.Chronological, Mirrors, SavedOf;
    var d := Life(Fresh(pool, now), es).value;
    LifeLogged(pool, now, es, n);
    LifeAgrees(pool, now, es, n);
    LifeIsLater(pool, now, es);
    LoggedLater(d, n, now);
    LoggedSorted(d, n);
    ChronologicalIsSorted(earlier, n);
    forall i | 0 <= i < |SavedOf(earlier, n)| ensures SavedOf(earlier, n)[i].checkedAt <= now {
      SavedFrom(earlier, n, SavedOf(earlier, n)[i]);
    }
    SortedConcat(SavedOf(earlier, n), Logged(d, n), now);
    SavedOfConcat(earlier, WritesOf(Fresh(pool, now), es), n);
  }

  lemma StillChronological(pool: nat, now: Time, earlier: seq<Stores.Op>, es: seq<Happening>)
    requires Life(Fresh(pool, now), es).Some? && Earlier(earlier, now)
    ensures Stores.Chronological(earlier + WritesOf(Fresh(pool, now), es))
  {
    hide Stores.Sorted, Stores.Chronological, WritesOf, Life, SavedOf, Logged, Earlier;
    var ops := earlier + WritesOf(Fresh(pool, now), es);
    forall n ensures Stores.Sorted(SavedOf(ops, n)) {
      SavedLogged(pool, now, earlier, es, n);
    }
    SortedIsChronological(ops);
  }

  /** What the recent end of a longer record says is what its own last three results say. */
  lemma StateOfRows(rows: seq<Result>, before: seq<Result>, seen: seq<Result>)
    requires IsSuffix(rows, Map(Stored, before + seen)) && |rows| >= 3 && |seen| >= 3
    requires forall r :: r in LastN(seen, 3) ==> !BarFlips(r)
    ensures Fold(Ups(seen)).state == if true in Ups(rows)[|rows| - 3..] then Up else Down
  {
    hide Stored, BarFlips, Verdict, Fold, Ups, IsSuffix;
    SameEnd(before, seen);
    VerdictOfStored(rows, before + seen);
    StateClosedForm(Ups(seen));
    SameVerdict(before, seen);
  }

  lemma SameEnd(before: seq<Result>, seen: seq<Result>)
    requires |seen| >= 3
    ensures LastN(before + seen, 3) == LastN(seen, 3)
  {
  }

  lemma SameVerdict(before: seq<Result>, seen: seq<Result>)
    requires |seen| >= 3
    ensures Verdict(Ups(before + seen)) == Verdict(Ups(seen))
  {
    assert LastN(Ups(before + seen), 3) == LastN(Ups(seen), 3);
  }

  /** Whole-daemon agreement on a row store that survives restarts, at any cutoffs: whenever no probe
      of `n` is between saving and observing, the rows of `n` show a recent stretch of what was saved
      before the boot followed by what the machine has observed since; and with three rows and three
      observations the debounced state is what the last three rows say, unless an error without text
      hides among them. */
  lemma RowsAfterRestart(pool: nat, now: Time, earlier: seq<Stores.Op>, es: seq<Happening>, n: string)
    requires Life(Fresh(pool, now), es).Some? && Earlier(earlier, now)
    ensures var d, ops := Life(Fresh(pool, now), es).value, earlier + WritesOf(Fresh(pool, now), es);
            var rows, seen := RowHistory(Stores.RowRun(ops).rows, n), Seen(d.observed, n);
            !Ahead(JobOf(d.phase, n)) ==>
              && IsSuffix(rows, Map(Stored, SavedOf(earlier, n) + seen))
              && (|rows| >= 3 && |seen| >= 3 && (forall r :: r in LastN(seen, 3) ==> !BarFlips(r)) ==>
                Lookup(d.world.track, n).state == if true in Ups(rows)[|rows| - 3..] then Up else Down)
  {
    hide Stores.Chronological, Stores.DistinctLists, Stores.RowRun, Stores.MemRun, Stores.Own, WritesOf, Life;
    hide JobOf, BarFlips, Stored, RowHistory, Fold, Verdict, SavedOf, Earlier;
    var d, ops := Life(Fresh(pool, now), es).value, earlier + WritesOf(Fresh(pool, now), es);
    var own, seen := Stores.Own(ops, n), Seen(d.observed, n);
    StillChronological(pool, now, earlier, es);
    SavedLogged(pool, now, earlier, es, n);
    LifeAgrees(pool, now, es, n);
    OwnIsSuffixOfSaved(ops, n);
    Stores.RowHistoryIsStored(ops, n);
    if !Ahead(JobOf(d.phase, n)) {
      var all := SavedOf(earlier, n) + seen;
      LastNSuffix(own, HISTORY_LIMIT);
      SuffixTransitive(LastN(own, HISTORY_LIMIT), own, all);
      SuffixMapped(LastN(own, HISTORY_LIMIT), all);
      var rows := RowHistory(Stores.RowRun(ops).rows, n);
      if |rows| >= 3 && |seen| >= 3 && (forall r :: r in LastN(seen, 3) ==> !BarFlips(r)) {
        StateOfRows(rows, SavedOf(earlier, n), seen);
      }
    }
  }

  lemma NothingEarlier(ops: seq<Stores.Op>, now: Time, n: string)
    ensures Earlier([], now) && SavedOf([], n) == [] && [] + ops == ops
  {
  }

  /** The same from an empty store: the rows are a recent stretch of what the machine observed. */
  lemma RowsAndMachineAgree(pool: nat, now: Time, es: seq<Happening>, n: string)
    requires Life(Fresh(pool, now), es).Some?
    ensures var d, ops := Life(Fresh(pool, now), es).value, WritesOf(Fresh(pool, now), es);
            var rows, seen := RowHistory(Stores.RowRun(ops).rows, n), Seen(d.observed, n);
            !Ahead(JobOf(d.phase, n)) ==>
              && IsSuffix(rows, Map(Stored, seen))
              && (|rows| >= 3 && (forall r :: r in LastN(seen, 3) ==> !BarFlips(r)) ==>
                Lookup(d.world.track, n).state == if true in Ups(rows)[|rows| - 3..] then Up else Down)
  {
    hide Stores.RowRun, WritesOf, Life, JobOf, BarFlips, Stored, RowHistory, Lookup;
    NothingEarlier(WritesOf(Fresh(pool, now), es), now, n);
    hide SavedOf, Earlier;
    RowsAfterRestart(pool, now, [], es, n);
    var seen := Seen(Life(Fresh(pool, now), es).value.observed, n);
    assert [] + seen == seen;
  }

  lemma ProberBarsStay(r: Result)
    requires ProberShaped(r)
    ensures !BarFlips(r)
  {
  }

  lemma SeenBarsStay(d: Daemon, n: string)
    requires AllResults(d, r => ProberShaped(r))
    ensures forall r :: r in LastN(Seen(d.observed, n), 3) ==> !BarFlips(r)
  {
    hide BarFlips;
    var seen := Seen(d.observed, n);
    forall r | r in LastN(seen, 3) ensures !BarFlips(r) {
      assert r in seen;
      var i :| 0 <= i < |seen| && seen[i] == r;
      assert ProberShaped(seen[i]);
      ProberBarsStay(r);
    }
  }

  /** For the daemon with its HTTP prober, on its surviving row store, no condition on the results is
      left: with three rows and three observations the shown state is what the last three rows say. */
  lemma ProbedRowsShowState(pool: nat, now: Time, earlier: seq<Stores.Op>, es: seq<Happening>, n: string)
    requires Life(Fresh(pool, now), es).Some? && Earlier(earlier, now) && HonestlyProbed(es)
    ensures var d, ops := Life(Fresh(pool, now), es).value, earlier + WritesOf(Fresh(pool, now), es);
            var rows := RowHistory(Stores.RowRun(ops).rows, n);
            !Ahead(JobOf(d.phase, n)) && |rows| >= 3 && |Seen(d.observed, n)| >= 3 ==>
              Lookup(d.world.track, n).state == if true in Ups(rows)[|rows| - 3..] then Up else Down
  {
    hide Stores.RowRun, WritesOf, Life, JobOf, BarFlips, Stored, RowHistory, Lookup;
    hide Earlier, HonestlyProbed, AllResults;
    LifeIsProbed(pool, now, es);
    SeenBarsStay(Life(Fresh(pool, now), es).value, n);
    RowsAfterRestart(pool, now, earlier, es, n);
  }
}
