/** The alerts of a whole life of the daemon, traced back to the results the trackers have seen. */
module Firings {
  import opened Monitoring
  import opened Sequences
  import opened StateMachine
  import opened FlapDetector
  import opened CertAlarm
  import opened Notify
  import opened ProbeBatch
  import opened Probe
  import opened Agreement
  import Interleaving

  // ---------- what the trackers say about a history of one monitor ----------

  /** The last result of `rs` makes the debounced state change loudly. */
  function StateFiring(rs: seq<Result>): Option<Event>
    requires rs != []
  {
    var r := rs[|rs| - 1];
    match Announcement(Fold(Ups(rs[..|rs| - 1])), r)
    case None => None
    case Some(t) => Some(StateChange(t.monitor, t.from, t.to, t.result))
  }

  /** The last result of `rs` shows a certificate falling below the line. */
  function CertFiring(rs: seq<Result>): Option<Event>
    requires rs != []
  {
    var r := rs[|rs| - 1];
    if CertFiresAt(rs, |rs| - 1)
    then Some(CertExpiring(r.monitorName, r.certExpiry, DaysLeft(r.certExpiry, r.checkedAt))) else None
  }

  /** The last result of `rs` takes the flip count from below five to five. */
  function FlapFiring(rs: seq<Result>): Option<Event>
    requires rs != []
  {
    var ups, r := Ups(rs), rs[|rs| - 1];
    if FiresAt(ups, |rs| - 1) then Some(Flapping(r.monitorName, WindowFlips(ups))) else None
  }

  /** All firings of a monitor's trackers over its history, each result's in the order state,
      certificate, flapping. */
  function FiringsOf(rs: seq<Result>): seq<Event> {
    if rs == [] then []
    else FiringsOf(rs[..|rs| - 1]) + Listed(StateFiring(rs)) + Listed(CertFiring(rs)) + Listed(FlapFiring(rs))
  }

  /** The trackers of one monitor after its history, with nothing pending. */
  function Tracked(rs: seq<Result>, n: string): Share {
    Share(None, if rs == [] then None else Some(Fold(Ups(rs))), Find(CertFold(rs), n),
          if rs == [] then None else Some(FlapFold(Ups(rs))), None, FiringsOf(rs))
  }

  /** A share without its history, which reloads and sweeps may change. */
  function Rest(s: Share): Share {
    s.(history := None)
  }

  /** The first `k` stages of the probe that returned `r`, on top of `s`. */
  function Through(s: Share, k: nat, r: Result): Share
    requires k <= |STAGES|
  {
    if k == 0 then s else Rest(ShareStage(Through(s, k - 1, r), STAGES[k - 1], r))
  }

  lemma CertsOfOne(a: map<string, bool>, b: map<string, bool>, r: Result)
    requires Find(a, r.monitorName) == Find(b, r.monitorName)
    ensures Find(CertAfter(a, r), r.monitorName) == Find(CertAfter(b, r), r.monitorName)
    ensures CertAlert(a, r) == CertAlert(b, r)
  {
  }

  /** Table entries of one monitor, as one-entry tables. */
  function Alone<V>(n: string, v: Option<V>): map<string, V> {
    if v.Some? then map[n := v.value] else map[]
  }

  lemma SavingThrough(s: Share, r: Result)
    requires s.history == None
    ensures Through(s, 1, r) == s
  {
    assert Through(s, 0, r) == s;
  }

  lemma StateThrough(s: Share, r: Result)
    requires s.history == None && s.pending == None
    ensures var track := Alone(r.monitorName, s.track);
            Through(s, 3, r) == s.(track := Some(Step(Lookup(track, r.monitorName), r.IsUp())),
                                   alerts := s.alerts + Listed(StateAlert(track, r)))
  {
    SavingThrough(s, r);
    hide Step, Announcement, StateAlert;
    assert Through(s, 2, r) == Rest(ShareStage(Through(s, 1, r), Debouncing, r));
    assert Through(s, 3, r) == Rest(ShareStage(Through(s, 2, r), TellingState, r));
  }

  lemma CertThrough(s: Share, t: Share, r: Result)
    requires t == Through(s, 3, r) && t.history == None && t.pending == None
    ensures var certs := Alone(r.monitorName, t.cert);
            Through(s, 5, r) == t.(cert := Find(CertAfter(certs, r), r.monitorName),
                                   alerts := t.alerts + Listed(CertAlert(certs, r)))
  {
    hide CertAfter, CertAlert;
    assert Through(s, 4, r) == Rest(ShareStage(t, CertChecking, r));
    assert Through(s, 5, r) == Rest(ShareStage(Through(s, 4, r), TellingCert, r));
  }

  lemma FlapThrough(s: Share, t: Share, r: Result)
    requires t == Through(s, 5, r) && t.history == None && t.pending == None
    ensures var flaps := Alone(r.monitorName, t.flap);
            Through(s, 7, r) == t.(flap := Some(FlapStep(LookupFlap(flaps, r.monitorName), r.IsUp())),
                                   alerts := t.alerts + Listed(FlapAlert(flaps, r)))
  {
    hide FlapStep, FlapAlert;
    assert Through(s, 6, r) == Rest(ShareStage(t, FlapChecking, r));
    assert Through(s, 7, r) == Rest(ShareStage(Through(s, 6, r), TellingFlap, r));
  }

  lemma Extended(rs: seq<Result>, r: Result)
    ensures (rs + [r])[..|rs|] == rs && Ups(rs + [r]) == Ups(rs) + [r.IsUp()]
    ensures Fold(Ups(rs + [r])) == Step(Fold(Ups(rs)), r.IsUp())
    ensures FlapFold(Ups(rs + [r])) == FlapStep(FlapFold(Ups(rs)), r.IsUp())
    ensures CertFold(rs + [r]) == CertAfter(CertFold(rs), r)
  {
    UpsAppend(rs, r);
    assert (Ups(rs) + [r.IsUp()])[..|rs|] == Ups(rs);
  }

  lemma StateFiringIsAlert(rs: seq<Result>, r: Result)
    ensures StateFiring(rs + [r])
      == StateAlert(Alone(r.monitorName, if rs == [] then None else Some(Fold(Ups(rs)))), r)
  {
    hide Step, Fold, FlapFold, CertFold;
    Extended(rs, r);
    NothingTracked();
    var track := Alone(r.monitorName, if rs == [] then None else Some(Fold(Ups(rs))));
    assert Lookup(track, r.monitorName) == Fold(Ups(rs));
  }

  lemma CertFiringIsAlert(rs: seq<Result>, r: Result)
    ensures CertFiring(rs + [r]) == CertAlert(Alone(r.monitorName, Find(CertFold(rs), r.monitorName)), r)
  {
    hide Fold, FlapFold, CertFold, DaysLeft;
    Extended(rs, r);
    CertsOfOne(CertFold(rs), Alone(r.monitorName, Find(CertFold(rs), r.monitorName)), r);
  }

  lemma FlapFiringIsAlert(rs: seq<Result>, r: Result)
    ensures FlapFiring(rs + [r])
      == FlapAlert(Alone(r.monitorName, if rs == [] then None else Some(FlapFold(Ups(rs)))), r)
  {
    hide FlapStep, Fold, FlapFold, CertFold, Flips;
    Extended(rs, r);
    NothingTracked();
    FlapWindow(Ups(rs + [r]));
    var flaps := Alone(r.monitorName, if rs == [] then None else Some(FlapFold(Ups(rs))));
    assert LookupFlap(flaps, r.monitorName) == FlapFold(Ups(rs));
    assert Ups(rs + [r])[..|rs|] == Ups(rs);
  }

  /** One whole probe takes the trackers of a monitor from its history to its history with the new
      result, and raises exactly what they fire. */
  lemma ProbeTracks(rs: seq<Result>, r: Result)
    ensures Through(Tracked(rs, r.monitorName), 7, r) == Tracked(rs + [r], r.monitorName)
  {
    hide Through, Fold, FlapFold, Step, FlapStep, StateFiring, CertFiring, FlapFiring, StateAlert, CertAlert, FlapAlert;
    hide CertAfter, CertFold;
    var n := r.monitorName;
    var s := Tracked(rs, n);
    var t3, t5 := Through(s, 3, r), Through(s, 5, r);
    StateThrough(s, r);
    CertThrough(s, t3, r);
    FlapThrough(s, t5, r);
    Extended(rs, r);
    StateFiringIsAlert(rs, r);
    CertFiringIsAlert(rs, r);
    FlapFiringIsAlert(rs, r);
    CertsOfOne(CertFold(rs), Alone(n, Find(CertFold(rs), n)), r);
    NothingTracked();
  }

  lemma NothingTracked()
    ensures Fold(Ups([])) == FRESH && FlapFold(Ups([])) == CALM
  {
    assert Ups([]) == [];
  }

  // ---------- along a life ----------

  /** The machine has seen the result of this probe. */
  predicate Observed(job: Progress) {
    job.Running? && Interleaving.StagesDone(job) >= 2
  }

  /** Whatever the other monitors do, the trackers and alerts of `n` are those of its own results,
      and of the stages its probe has behind it. */
  ghost predicate Heard(rest: Share, seen: seq<Result>, job: Progress, n: string) {
    if job.Running? then
      && job.result.monitorName == n
      && (Observed(job) ==> seen != [] && seen[|seen| - 1] == job.result)
      && rest == Through(Tracked(if Observed(job) then seen[..|seen| - 1] else seen, n),
                         Interleaving.StagesDone(job), job.result)
    else rest == Tracked(seen, n)
  }

  ghost predicate HeardOf(d: Daemon, n: string) {
    Heard(Rest(ShareOf(d.world, n)), Seen(d.observed, n), JobOf(d.phase, n), n)
  }

  lemma ThroughOn(s: Share, k: nat, r: Result)
    requires k < |STAGES|
    ensures Through(s, k + 1, r) == Rest(ShareStage(Through(s, k, r), STAGES[k], r))
  {
  }

  lemma StageHeard(rest: Share, seen: seq<Result>, job: Progress, after: Progress, n: string)
    requires Heard(rest, seen, job, n) && job.Running?
    requires if job.stage.Final() then after == Finished(job.result)
             else after == Running(job.worker, job.stage.Following(), job.result)
    ensures Heard(Rest(ShareStage(rest, job.stage, job.result)),
                  if job.stage.Debouncing? then seen + [job.result] else seen, after, n)
  {
    hide ShareStage, Tracked, Through, Rest;
    var r := job.result;
    var base := if Observed(job) then seen[..|seen| - 1] else seen;
    StagePlace(job);
    ThroughOn(Tracked(base, n), Interleaving.StagesDone(job), r);
    if job.stage.Final() {
      ProbeTracks(base, r);
      assert base + [r] == seen;
    } else if job.stage.Debouncing? {
      assert (seen + [r])[..|seen|] == seen;
    }
  }

  /** Where a stage stands among the seven. */
  lemma StagePlace(job: Progress)
    requires job.Running?
    ensures Interleaving.StagesDone(job) < |STAGES| && STAGES[Interleaving.StagesDone(job)] == job.stage
    ensures job.stage.Final() ==> Interleaving.StagesDone(job) == 6 && Observed(job)
    ensures !job.stage.Final() ==>
      var next := Running(job.worker, job.stage.Following(), job.result);
      && Interleaving.StagesDone(next) == Interleaving.StagesDone(job) + 1
      && (Observed(next) <==> Observed(job) || job.stage.Debouncing?)
    ensures job.stage.Debouncing? ==> !Observed(job)
  {
  }

  /** A stage acts on the rest of a share as on the whole. */
  lemma StageOnRest(s: Share, stage: Stage, r: Result)
    ensures Rest(ShareStage(s, stage, r)) == Rest(ShareStage(Rest(s), stage, r))
  {
  }

  lemma OwnStageHeard(d: Daemon, v: nat)
    requires BatchSound(d) && CanHappen(d, BatchStep(StageDone(v))) && Filed(d.world)
    requires HeardOf(d, d.phase.names[d.phase.batch.workers[v].job])
    ensures HeardOf(Happen(d, BatchStep(StageDone(v))), d.phase.names[d.phase.batch.workers[v].job])
  {
    hide DoStage, JobOf, Heard, ShareOf, ShareStage, Rest;
    var b := d.phase.batch;
    var i := b.workers[v].job;
    var n, p := d.phase.names[i], b.progress[i];
    var e := Happen(d, BatchStep(StageDone(v)));
    BatchStepSound(d, StageDone(v));
    JobAt(d.phase, i);
    JobAt(e.phase, i);
    StageOnShare(d.world, p.stage, p.result);
    StageOnRest(ShareOf(d.world, n), p.stage, p.result);
    StageHeard(Rest(ShareOf(d.world, n)), Seen(d.observed, n), p, e.phase.batch.progress[i], n);
  }

  lemma OtherStageHeard(d: Daemon, v: nat, n: string)
    requires BatchSound(d) && CanHappen(d, BatchStep(StageDone(v))) && Filed(d.world) && HeardOf(d, n)
    requires n != d.phase.names[d.phase.batch.workers[v].job]
    ensures HeardOf(Happen(d, BatchStep(StageDone(v))), n)
  {
    hide DoStage, JobOf, Heard, ShareOf, Rest;
    var p := d.phase.batch.progress[d.phase.batch.workers[v].job];
    StageIsLocal(d.world, p.stage, p.result, n);
    JobUnchanged(d, StageDone(v), n);
  }

  /** A probe that returns has done nothing yet. */
  lemma ReturnHeard(rest: Share, seen: seq<Result>, job: Progress, after: Progress, n: string)
    requires Heard(rest, seen, job, n) && !job.Running?
    requires !after.Running? || (after.stage.Saving? && after.result.monitorName == n)
    ensures Heard(rest, seen, after, n)
  {
    hide Tracked;
  }

  lemma HandoverHeard(d: Daemon, l: Label, n: string)
    requires BatchSound(d) && CanHappen(d, BatchStep(l)) && (l.Rendezvous? || l.ProbeReturns?) && HeardOf(d, n)
    ensures HeardOf(Happen(d, BatchStep(l)), n)
  {
    hide JobOf, Heard, ShareOf, Rest;
    var i := if l.Rendezvous? then l.i else d.phase.batch.workers[l.w].job;
    if n == d.phase.names[i] {
      BatchStepSound(d, l);
      JobAt(d.phase, i);
      JobAt(Happen(d, BatchStep(l)).phase, i);
      ReturnHeard(Rest(ShareOf(d.world, n)), Seen(d.observed, n), JobOf(d.phase, n),
                  JobOf(Happen(d, BatchStep(l)).phase, n), n);
    } else {
      JobUnchanged(d, l, n);
    }
  }

  lemma QuietStepHeard(d: Daemon, l: Label, n: string)
    requires BatchSound(d) && CanHappen(d, BatchStep(l)) && HeardOf(d, n)
    requires !l.StageDone? && !l.Rendezvous? && !l.ProbeReturns?
    ensures HeardOf(Happen(d, BatchStep(l)), n)
  {
    hide JobOf, Heard, ShareOf, Rest;
    if l.Return? {
      ReturnLeavesNoJob(d, n);
      NoJob(Happen(d, BatchStep(l)).phase, n);
      ReturnHeard(Rest(ShareOf(d.world, n)), Seen(d.observed, n), JobOf(d.phase, n), NotStarted, n);
    } else {
      JobUnchanged(d, l, n);
    }
  }

  /** Clock, signal, reloads and sweeps leave every job, tracker and alert alone; and batches begin
      and end between probes. */
  lemma OutsideHeard(d: Daemon, e: Happening, n: string)
    requires BatchSound(d) && CanHappen(d, e) && !e.BatchStep? && HeardOf(d, n)
    ensures HeardOf(Happen(d, e), n)
  {
    var job, after := JobOf(d.phase, n), JobOf(Happen(d, e).phase, n);
    assert Rest(ShareOf(Happen(d, e).world, n)) == Rest(ShareOf(d.world, n));
    JobOutside(d, e, n);
    hide JobOf, Heard;
    if after != job {
      ReturnHeard(Rest(ShareOf(d.world, n)), Seen(d.observed, n), job, after, n);
    }
  }

  lemma JobOutside(d: Daemon, e: Happening, n: string)
    requires BatchSound(d) && CanHappen(d, e) && !e.BatchStep?
    ensures var job, after := JobOf(d.phase, n), JobOf(Happen(d, e).phase, n);
            after == job || (!job.Running? && !after.Running?)
  {
    var after := Happen(d, e).phase;
    if e.Cancel? && d.phase.InBatch? && n in d.phase.names {
      var i :| 0 <= i < |d.phase.names| && d.phase.names[i] == n;
      JobAt(d.phase, i);
      JobAt(after, i);
    } else if e.BeginBatch? && n in after.names {
      var i :| 0 <= i < |after.names| && after.names[i] == n;
      EventSound(d, BeginBatch);
      JobAt(after, i);
    }
  }

  lemma EventHeard(d: Daemon, e: Happening, n: string)
    requires BatchSound(d) && CanHappen(d, e) && Filed(d.world) && HeardOf(d, n)
    ensures HeardOf(Happen(d, e), n) && Filed(Happen(d, e).world)
  {
    hide HeardOf;
    EventKeepsFiled(d, e);
    if !e.BatchStep? {
      OutsideHeard(d, e, n);
    } else if e.step.StageDone? {
      if n == d.phase.names[d.phase.batch.workers[e.step.w].job] {
        OwnStageHeard(d, e.step.w);
      } else {
        OtherStageHeard(d, e.step.w, n);
      }
    } else if e.step.Rendezvous? || e.step.ProbeReturns? {
      HandoverHeard(d, e.step, n);
    } else {
      QuietStepHeard(d, e.step, n);
    }
  }

  lemma EventKeepsFiled(d: Daemon, e: Happening)
    requires CanHappen(d, e) && Filed(d.world)
    ensures Filed(Happen(d, e).world)
  {
    hide DoStage;
    if e.BatchStep? && e.step.StageDone? {
      var p := d.phase.batch.progress[d.phase.batch.workers[e.step.w].job];
      StageKeepsFiled(d.world, p.stage, p.result);
    }
  }

  lemma {:induction false} LifeHeard(pool: nat, now: Time, es: seq<Happening>, n: string)
    requires Life(Fresh(pool, now), es).Some?
    ensures var d := Life(Fresh(pool, now), es).value; HeardOf(d, n) && Filed(d.world)
  {
    if es == [] {
      assert Ups([]) == [];
    } else {
      hide BatchSound, AgreesOn, HeardOf, CanHappen, Happen, Filed;
      var before := es[..|es| - 1];
      LifeHeard(pool, now, before, n);
      LifeAgrees(pool, now, before, n);
      EventHeard(Life(Fresh(pool, now), before).value, es[|es| - 1], n);
    }
  }

  /** Whatever batches, reloads and sweeps interleave: when no probe of `n` is under way, the alerts
      handed to the notifier about `n` are exactly the firings of its three trackers over everything
      observed of it, in order, none lost at a drop, a re-add or a prune. */
  lemma AlertsAreFirings(pool: nat, now: Time, es: seq<Happening>, n: string)
    requires Life(Fresh(pool, now), es).Some?
    ensures var d := Life(Fresh(pool, now), es).value;
            !JobOf(d.phase, n).Running? ==> Filter(d.world.alerts, About(n)) == FiringsOf(Seen(d.observed, n))
  {
    hide Life, JobOf, FiringsOf;
    LifeHeard(pool, now, es, n);
  }
}
