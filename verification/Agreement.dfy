/** The scheduler running batch after batch while configuration reloads and retention sweeps change
    the store underneath it: what the store shows and what the machine has seen stay in step. */
module Agreement {
  import opened Monitoring
  import opened Sequences
  import opened StateMachine
  import opened MemoryStore
  import opened ProbeBatch
  import opened Probe
  import Interleaving
  import Refinement

  /** Where `Run` stands: before its first batch, between batches, inside one, or returned. */
  datatype Phase = First | Between | InBatch(names: seq<string>, batch: Batch) | Stopped

  /** `observed` records, per monitor, every result the state machine has been fed. */
  datatype Daemon = Daemon(
    pool: nat,
    phase: Phase,
    cancelled: bool,
    list: seq<Monitor>,
    world: World,
    observed: map<string, seq<Result>>,
    now: Time
  )

  const EMPTY_WORLD := World(map[], map[], map[], map[], map[], [])

  function Fresh(pool: nat, now: Time): Daemon {
    Daemon(pool, First, false, [], EMPTY_WORLD, map[], now)
  }

  datatype Happening =
    | BeginBatch
    | ListFails
    | BatchStep(step: Label)
    | Stop
    | Cancel
    | Sync(list: seq<Monitor>)
    | Prune(cutoff: Time)
    | Clock(time: Time)

  function NamesOf(ms: seq<Monitor>): seq<string> {
    Map((m: Monitor) => m.name, ms)
  }

  predicate CanHappen(d: Daemon, e: Happening) {
    match e
    case BeginBatch => d.phase.First? || d.phase.Between?
    case ListFails => d.phase.First? || d.phase.Between?
    case BatchStep(l) =>
      && d.phase.InBatch? && Enabled(d.phase.batch, l) && l != Label.Cancel
      && (l.ProbeReturns? ==>
        && d.phase.batch.workers[l.w].job < |d.phase.names|
        && l.result.monitorName == d.phase.names[d.phase.batch.workers[l.w].job]
        && l.result.checkedAt == d.now)
    case Stop => d.phase.Between? && d.cancelled
    case Cancel => !d.cancelled && (d.phase.InBatch? ==> Enabled(d.phase.batch, Label.Cancel))
    case Sync(ms) => DistinctNames(ms)
    case Prune(_) => true
    case Clock(t) => t >= d.now
  }

  function Seen(observed: map<string, seq<Result>>, name: string): seq<Result> {
    if name in observed then observed[name] else []
  }

  function AfterBatchStep(d: Daemon, l: Label): Daemon
    requires d.phase.InBatch? && Enabled(d.phase.batch, l)
  {
    var b, t := d.phase.batch, Next(d.phase.batch, l);
    var observed :=
      if l.StageDone? && b.progress[b.workers[l.w].job].stage.Debouncing? then
        var r := b.progress[b.workers[l.w].job].result;
        d.observed[r.monitorName := Seen(d.observed, r.monitorName) + [r]]
      else d.observed;
    d.(phase := if t.main.Returned? then Between else InBatch(d.phase.names, t),
       world := Interleaving.Effect(b, d.world, l),
       observed := observed)
  }

  function Happen(d: Daemon, e: Happening): Daemon
    requires CanHappen(d, e)
  {
    match e
    case BeginBatch => d.(phase := InBatch(NamesOf(d.list), Initial(d.pool, |d.list|, d.cancelled)))
    case ListFails => d.(phase := Between)
    case BatchStep(l) => AfterBatchStep(d, l)
    case Stop => d.(phase := Phase.Stopped)
    case Cancel =>
      d.(cancelled := true,
         phase := if d.phase.InBatch? then InBatch(d.phase.names, Next(d.phase.batch, Label.Cancel)) else d.phase)
    case Sync(ms) => d.(list := ms, world := d.world.(history := Synced(d.world.history, ms)))
    case Prune(t) => d.(world := d.world.(history := Pruned(d.world.history, t)))
    case Clock(t) => d.(now := t)
  }

  function Life(d: Daemon, es: seq<Happening>): Option<Daemon> {
    if es == [] then Some(d)
    else
      match Life(d, es[..|es| - 1])
      case None => None
      case Some(m) => if CanHappen(m, es[|es| - 1]) then Some(Happen(m, es[|es| - 1])) else None
  }

  // ---------- what every event keeps ----------

  ghost predicate BatchSound(d: Daemon) {
    && DistinctNames(d.list)
    && (d.phase.InBatch? ==>
      && Inv(d.phase.batch)
      && !d.phase.batch.main.Returned?
      && d.phase.batch.cancelled == d.cancelled
      && Interleaving.Distinct(d.phase.names)
      && Interleaving.Honest(d.phase.names, d.phase.batch))
  }

  /** A step of the batch adds only results under the right names. */
  lemma BatchStepHonest(d: Daemon, l: Label)
    requires BatchSound(d) && CanHappen(d, BatchStep(l))
    ensures Interleaving.Honest(d.phase.names, Next(d.phase.batch, l))
    ensures Next(d.phase.batch, l).cancelled == d.phase.batch.cancelled
  {
    hide PhaseInv, JobInv;
  }

  lemma BatchStepSound(d: Daemon, l: Label)
    requires BatchSound(d) && CanHappen(d, BatchStep(l))
    ensures BatchSound(Happen(d, BatchStep(l)))
  {
    hide Interleaving.Effect, Inv, Enabled, Next;
    InvKept(d.phase.batch, l);
    BatchStepHonest(d, l);
  }

  lemma EventSound(d: Daemon, e: Happening)
    requires BatchSound(d) && CanHappen(d, e)
    ensures BatchSound(Happen(d, e))
  {
    match e
    case BatchStep(l) => BatchStepSound(d, l);
    case BeginBatch => InitialInv(d.pool, |d.list|, d.cancelled);
    case Cancel =>
      if d.phase.InBatch? {
        InvKept(d.phase.batch, Label.Cancel);
      }
    case _ =>
  }

  /** The job of the current batch that probes `n`. */
  ghost function JobOf(phase: Phase, n: string): Progress {
    if phase.InBatch? && |phase.names| == |phase.batch.progress| && n in phase.names then
      var i :| 0 <= i < |phase.names| && phase.names[i] == n;
      phase.batch.progress[i]
    else NotStarted
  }

  lemma JobAt(phase: Phase, i: nat)
    requires phase.InBatch? && |phase.names| == |phase.batch.progress| && i < |phase.names|
    requires Interleaving.Distinct(phase.names)
    ensures JobOf(phase, phase.names[i]) == phase.batch.progress[i]
  {
  }

  ghost predicate AllBefore(rs: seq<Result>, t: Time) {
    forall i :: 0 <= i < |rs| ==> rs[i].checkedAt <= t
  }

  /** Between saving and observing, the store is one result ahead of the machine. */
  ghost predicate Consistent(seen: seq<Result>, hist: seq<Result>, job: Progress, now: Time) {
    && Refinement.Sorted(seen) && AllBefore(seen, now)
    && (job.Running? && (job.stage.Saving? || job.stage.Debouncing?) ==>
      AllBefore(seen, job.result.checkedAt) && job.result.checkedAt <= now)
    && (if job.Running? && job.stage.Debouncing? then IsSuffix(hist, seen + [job.result]) else IsSuffix(hist, seen))
  }

  ghost predicate AgreesOn(d: Daemon, n: string) {
    && Consistent(Seen(d.observed, n), HistoryOf(d.world.history, n), JobOf(d.phase, n), d.now)
    && Lookup(d.world.track, n) == Fold(Ups(Seen(d.observed, n)))
  }

  lemma SortedSuffixPruned(h: seq<Result>, full: seq<Result>, cutoff: Time)
    requires Refinement.Sorted(full) && IsSuffix(h, full)
    ensures IsSuffix(Filter(h, NotBefore(cutoff)), full)
  {
    assert forall i :: 0 <= i < |h| ==> h[i] == full[|full| - |h| + i];
    var k := FilterUpward(h, NotBefore(cutoff));
    SuffixTransitive(Filter(h, NotBefore(cutoff)), h, full);
  }

  lemma PrunedConsistent(seen: seq<Result>, hist: seq<Result>, job: Progress, now: Time, cutoff: Time)
    requires Consistent(seen, hist, job, now)
    ensures Consistent(seen, Filter(hist, NotBefore(cutoff)), job, now)
  {
    if job.Running? && job.stage.Debouncing? {
      SortedSuffixPruned(hist, seen + [job.result], cutoff);
    } else {
      SortedSuffixPruned(hist, seen, cutoff);
    }
  }

  lemma PruneAgrees(d: Daemon, cutoff: Time, n: string)
    requires AgreesOn(d, n)
    ensures AgreesOn(Happen(d, Prune(cutoff)), n)
  {
    hide Consistent, Lookup, Fold, Seen, JobOf;
    var h := HistoryOf(d.world.history, n);
    assert HistoryOf(Pruned(d.world.history, cutoff), n) == Filter(h, NotBefore(cutoff));
    PrunedConsistent(Seen(d.observed, n), h, JobOf(d.phase, n), d.now, cutoff);
  }

  /** Of all stages only saving touches the store and only debouncing touches the machine, and
      each only for the probed monitor. */
  lemma StageOnStoreAndMachine(w: World, stage: Stage, r: Result, n: string)
    ensures HistoryOf(DoStage(w, stage, r).history, n) ==
      if stage.Saving? && n == r.monitorName then LastN(HistoryOf(w.history, n) + [r], HISTORY_SIZE)
      else HistoryOf(w.history, n)
    ensures Lookup(DoStage(w, stage, r).track, n) ==
      if stage.Debouncing? && n == r.monitorName then Step(Lookup(w.track, n), r.IsUp())
      else Lookup(w.track, n)
  {
  }

  lemma StagedConsistent(seen: seq<Result>, hist: seq<Result>, job: Progress, after: Progress, now: Time)
    requires Consistent(seen, hist, job, now) && job.Running?
    requires if job.stage.Final() then after == Finished(job.result)
             else after == Running(job.worker, job.stage.Following(), job.result)
    ensures match job.stage
            case Saving => Consistent(seen, LastN(hist + [job.result], HISTORY_SIZE), after, now)
            case Debouncing => Consistent(seen + [job.result], hist, after, now)
            case _ => Consistent(seen, hist, after, now)
  {
    hide Refinement.Sorted, AllBefore, IsSuffix;
    var r := job.result;
    match job.stage
    case Saving => SavedSuffix(seen, hist, r);
    case Debouncing => SortedAppend(seen, r, now);
    case _ =>
  }

  lemma SavedSuffix(seen: seq<Result>, hist: seq<Result>, r: Result)
    requires IsSuffix(hist, seen)
    ensures IsSuffix(LastN(hist + [r], HISTORY_SIZE), seen + [r])
  {
    SuffixAppend(hist, seen, r);
    SuffixTransitive(LastN(hist + [r], HISTORY_SIZE), hist + [r], seen + [r]);
  }

  lemma SortedAppend(seen: seq<Result>, r: Result, now: Time)
    requires Refinement.Sorted(seen) && AllBefore(seen, now) && AllBefore(seen, r.checkedAt) && r.checkedAt <= now
    ensures Refinement.Sorted(seen + [r]) && AllBefore(seen + [r], now)
  {
  }

  /** The stage of one job, seen from its own monitor. */
  lemma StageAgrees(d: Daemon, v: nat)
    requires BatchSound(d) && CanHappen(d, BatchStep(StageDone(v)))
    requires AgreesOn(d, d.phase.names[d.phase.batch.workers[v].job])
    ensures AgreesOn(Happen(d, BatchStep(StageDone(v))), d.phase.names[d.phase.batch.workers[v].job])
  {
    hide DoStage, Consistent, Fold, Lookup, JobOf, HistoryOf;
    var b := d.phase.batch;
    var i := b.workers[v].job;
    var n, p := d.phase.names[i], b.progress[i];
    var e := Happen(d, BatchStep(StageDone(v)));
    var seen := Seen(d.observed, n);
    BatchStepSound(d, StageDone(v));
    JobAt(d.phase, i);
    JobAt(e.phase, i);
    StageOnStoreAndMachine(d.world, p.stage, p.result, n);
    StagedConsistent(seen, HistoryOf(d.world.history, n), p, e.phase.batch.progress[i], d.now);
    if p.stage.Debouncing? {
      UpsAppend(seen, p.result);
      FoldAppend(Ups(seen), p.result.IsUp());
    }
  }

  /** The job of a monitor the step does not concern stays what it was. */
  lemma JobUnchanged(d: Daemon, l: Label, n: string)
    requires BatchSound(d) && CanHappen(d, BatchStep(l)) && !Next(d.phase.batch, l).main.Returned?
    requires forall i :: 0 <= i < |d.phase.names| && d.phase.names[i] == n ==>
      Next(d.phase.batch, l).progress[i] == d.phase.batch.progress[i]
    ensures JobOf(Happen(d, BatchStep(l)).phase, n) == JobOf(d.phase, n)
  {
    hide JobOf, Interleaving.Effect;
    BatchStepSound(d, l);
    var phase := Happen(d, BatchStep(l)).phase;
    if n in d.phase.names {
      var i :| 0 <= i < |d.phase.names| && d.phase.names[i] == n;
      JobAt(d.phase, i);
      JobAt(phase, i);
    } else {
      NoJob(d.phase, n);
      NoJob(phase, n);
    }
  }

  lemma NoJob(phase: Phase, n: string)
    requires phase.InBatch? ==> n !in phase.names
    ensures JobOf(phase, n) == NotStarted
  {
  }

  /** A stage of another monitor's job is invisible. */
  lemma StageElsewhereAgrees(d: Daemon, v: nat, n: string)
    requires BatchSound(d) && CanHappen(d, BatchStep(StageDone(v))) && AgreesOn(d, n)
    requires n != d.phase.names[d.phase.batch.workers[v].job]
    ensures AgreesOn(Happen(d, BatchStep(StageDone(v))), n)
  {
    hide DoStage, Consistent, Fold, Lookup, JobOf, HistoryOf;
    var p := d.phase.batch.progress[d.phase.batch.workers[v].job];
    StageOnStoreAndMachine(d.world, p.stage, p.result, n);
    JobUnchanged(d, StageDone(v), n);
  }

  /** A probe that returns does so now, later than everything observed. */
  lemma ProbeReturnAgrees(d: Daemon, l: Label, n: string)
    requires BatchSound(d) && CanHappen(d, BatchStep(l)) && l.ProbeReturns? && AgreesOn(d, n)
    ensures AgreesOn(Happen(d, BatchStep(l)), n)
  {
    hide JobOf, Fold, Lookup, HistoryOf;
    var i := d.phase.batch.workers[l.w].job;
    if n == d.phase.names[i] {
      BatchStepSound(d, l);
      JobAt(d.phase, i);
      JobAt(Happen(d, BatchStep(l)).phase, i);
    } else {
      JobUnchanged(d, l, n);
    }
  }

  lemma IdleConsistent(seen: seq<Result>, hist: seq<Result>, job: Progress, after: Progress, now: Time)
    requires Consistent(seen, hist, job, now) && !job.Running? && !after.Running?
    ensures Consistent(seen, hist, after, now)
  {
  }

  lemma HandoverAgrees(d: Daemon, i: nat, w: nat, n: string)
    requires BatchSound(d) && CanHappen(d, BatchStep(Rendezvous(i, w))) && AgreesOn(d, n)
    ensures AgreesOn(Happen(d, BatchStep(Rendezvous(i, w))), n)
  {
    hide JobOf, Fold, Lookup, HistoryOf, Consistent;
    if n == d.phase.names[i] {
      BatchStepSound(d, Rendezvous(i, w));
      JobAt(d.phase, i);
      JobAt(Happen(d, BatchStep(Rendezvous(i, w))).phase, i);
      IdleConsistent(Seen(d.observed, n), HistoryOf(d.world.history, n), NotStarted, Probing(w), d.now);
    } else {
      JobUnchanged(d, Rendezvous(i, w), n);
    }
  }

  /** When the batch returns no job is between its stages. */
  lemma ReturnLeavesNoJob(d: Daemon, n: string)
    requires BatchSound(d) && CanHappen(d, BatchStep(Return))
    ensures !JobOf(d.phase, n).Running?
  {
    hide JobOf, Sum;
    var b := d.phase.batch;
    InvKept(b, Return);
    ReturnedIsComplete(Next(b, Return));
    if n in d.phase.names {
      var i :| 0 <= i < |d.phase.names| && d.phase.names[i] == n;
      JobAt(d.phase, i);
    } else {
      NoJob(d.phase, n);
    }
  }

  lemma ReturnAgrees(d: Daemon, n: string)
    requires BatchSound(d) && CanHappen(d, BatchStep(Return)) && AgreesOn(d, n)
    ensures AgreesOn(Happen(d, BatchStep(Return)), n)
  {
    hide JobOf, Fold, Lookup, HistoryOf, Consistent, BatchSound;
    ReturnLeavesNoJob(d, n);
    NoJob(Happen(d, BatchStep(Return)).phase, n);
    IdleConsistent(Seen(d.observed, n), HistoryOf(d.world.history, n), JobOf(d.phase, n), NotStarted, d.now);
  }

  /** All other steps of a batch change neither the store, nor the machine, nor any job. */
  lemma QuietStepAgrees(d: Daemon, l: Label, n: string)
    requires BatchSound(d) && CanHappen(d, BatchStep(l)) && AgreesOn(d, n)
    requires !l.StageDone? && !l.ProbeReturns? && !l.Rendezvous? && !l.Return?
    ensures AgreesOn(Happen(d, BatchStep(l)), n)
  {
    hide JobOf, Fold, Lookup, HistoryOf, Consistent;
    JobUnchanged(d, l, n);
  }

  lemma CancelAgrees(d: Daemon, n: string)
    requires BatchSound(d) && CanHappen(d, Happening.Cancel) && AgreesOn(d, n)
    ensures AgreesOn(Happen(d, Happening.Cancel), n)
  {
    var e := Happen(d, Happening.Cancel);
    if d.phase.InBatch? && n in d.phase.names {
      var i :| 0 <= i < |d.phase.names| && d.phase.names[i] == n;
      JobAt(d.phase, i);
      JobAt(e.phase, i);
    }
  }

  lemma BeginAgrees(d: Daemon, n: string)
    requires BatchSound(d) && CanHappen(d, BeginBatch) && AgreesOn(d, n)
    ensures AgreesOn(Happen(d, BeginBatch), n)
  {
    var e := Happen(d, BeginBatch);
    if n in e.phase.names {
      var i :| 0 <= i < |e.phase.names| && e.phase.names[i] == n;
      EventSound(d, BeginBatch);
      JobAt(e.phase, i);
    }
  }

  lemma BatchStepAgrees(d: Daemon, l: Label, n: string)
    requires BatchSound(d) && CanHappen(d, BatchStep(l)) && AgreesOn(d, n)
    ensures AgreesOn(Happen(d, BatchStep(l)), n)
  {
    hide AgreesOn, Happen, Inv;
    if l.ProbeReturns? {
      ProbeReturnAgrees(d, l, n);
    } else if l.Rendezvous? {
      HandoverAgrees(d, l.i, l.w, n);
    } else if l.Return? {
      ReturnAgrees(d, n);
    } else if !l.StageDone? {
      QuietStepAgrees(d, l, n);
    } else if n == d.phase.names[d.phase.batch.workers[l.w].job] {
      StageAgrees(d, l.w);
    } else {
      StageElsewhereAgrees(d, l.w, n);
    }
  }

  lemma EmptyConsistent(seen: seq<Result>, hist: seq<Result>, job: Progress, now: Time)
    requires Consistent(seen, hist, job, now)
    ensures Consistent(seen, [], job, now)
  {
  }

  /** A reload keeps a monitor's history or drops it whole. */
  lemma SyncAgrees(d: Daemon, ms: seq<Monitor>, n: string)
    requires CanHappen(d, Sync(ms)) && AgreesOn(d, n)
    ensures AgreesOn(Happen(d, Sync(ms)), n)
    ensures HistoryOf(Happen(d, Sync(ms)).world.history, n) ==
      if n in Names(ms) then HistoryOf(d.world.history, n) else []
  {
    hide Fold, Lookup, JobOf, Consistent, Seen;
    EmptyConsistent(Seen(d.observed, n), HistoryOf(d.world.history, n), JobOf(d.phase, n), d.now);
  }

  lemma LaterConsistent(seen: seq<Result>, hist: seq<Result>, job: Progress, now: Time, later: Time)
    requires Consistent(seen, hist, job, now) && now <= later
    ensures Consistent(seen, hist, job, later)
  {
  }

  /** Clock ticks and idle moves of the scheduler. */
  lemma IdleEventAgrees(d: Daemon, e: Happening, n: string)
    requires CanHappen(d, e) && AgreesOn(d, n) && (e.ListFails? || e.Stop? || e.Clock?)
    ensures AgreesOn(Happen(d, e), n)
  {
    hide Fold, Lookup, JobOf, Consistent, Seen, HistoryOf;
    LaterConsistent(Seen(d.observed, n), HistoryOf(d.world.history, n), JobOf(d.phase, n), d.now, Happen(d, e).now);
    if !e.Clock? {
      NoJob(d.phase, n);
      NoJob(Happen(d, e).phase, n);
    }
  }

  lemma EventAgrees(d: Daemon, e: Happening, n: string)
    requires BatchSound(d) && CanHappen(d, e) && AgreesOn(d, n)
    ensures AgreesOn(Happen(d, e), n)
  {
    hide BatchSound, AgreesOn, CanHappen, Happen;
    match e
    case BatchStep(l) => BatchStepAgrees(d, l, n);
    case Prune(t) => PruneAgrees(d, t, n);
    case Cancel => CancelAgrees(d, n);
    case BeginBatch => BeginAgrees(d, n);
    case Sync(ms) => SyncAgrees(d, ms, n);
    case _ => IdleEventAgrees(d, e, n);
  }

  lemma {:induction false} LifeAgrees(pool: nat, now: Time, es: seq<Happening>, n: string)
    requires Life(Fresh(pool, now), es).Some?
    ensures BatchSound(Life(Fresh(pool, now), es).value) && AgreesOn(Life(Fresh(pool, now), es).value, n)
  {
    if es != [] {
      hide BatchSound, AgreesOn, CanHappen, Happen;
      var m, e := Life(Fresh(pool, now), es[..|es| - 1]).value, es[|es| - 1];
      LifeAgrees(pool, now, es[..|es| - 1], n);
      EventSound(m, e);
      EventAgrees(m, e, n);
    }
  }

  lemma VerdictOfSuffix(hist: seq<Result>, seen: seq<Result>)
    requires IsSuffix(hist, seen) && |hist| >= FAIL_THRESHOLD
    ensures Verdict(Ups(hist)) == Verdict(Ups(seen))
  {
    assert LastN(Ups(hist), FAIL_THRESHOLD) == LastN(Ups(seen), FAIL_THRESHOLD);
  }

  /** Whole-daemon agreement. From an empty store and a fresh machine, through any interleaving of
      batches, reloads and retention sweeps: whenever no probe of `n` is between saving and
      observing, the store's history of `n` is a suffix of what the machine has observed of it; and
      as soon as the history holds three results, the debounced state shown for `n` is exactly what
      its last three bars say, even after drops, re-adds and prunes. */
  lemma StoreAndMachineAgree(pool: nat, now: Time, es: seq<Happening>, n: string)
    requires Life(Fresh(pool, now), es).Some?
    ensures var d := Life(Fresh(pool, now), es).value;
            var hist, job := HistoryOf(d.world.history, n), JobOf(d.phase, n);
            !(job.Running? && job.stage.Debouncing?) ==>
              && IsSuffix(hist, Seen(d.observed, n))
              && (|hist| >= 3 ==>
                Lookup(d.world.track, n).state == if true in Ups(hist)[|hist| - 3..] then Up else Down)
  {
    LifeAgrees(pool, now, es, n);
    var d := Life(Fresh(pool, now), es).value;
    var hist, seen, job := HistoryOf(d.world.history, n), Seen(d.observed, n), JobOf(d.phase, n);
    StateClosedForm(Ups(seen));
    if !(job.Running? && job.stage.Debouncing?) && |hist| >= 3 {
      VerdictOfSuffix(hist, seen);
      assert LastN(Ups(hist), FAIL_THRESHOLD) == Ups(hist)[|hist| - 3..];
    }
  }
}
