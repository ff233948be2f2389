/** Whatever way the worker pool interleaves the stages of a batch, the outcome is that of probing
    the monitors one at a time. */
module Interleaving {
  import opened Monitoring
  import opened Sequences
  import opened ProbeBatch
  import opened Probe

  /** The world after the batch run `ls`: a finished stage takes effect on the shared state. */
  function WorldAfter(b: Batch, w: World, ls: seq<Label>): World {
    if ls == [] then w
    else
      var before := WorldAfter(b, w, ls[..|ls| - 1]);
      match Run(b, ls[..|ls| - 1])
      case None => before
      case Some(m) => Effect(m, before, ls[|ls| - 1])
  }

  function Effect(b: Batch, w: World, l: Label): World {
    if Enabled(b, l) && l.StageDone? then
      var p := b.progress[b.workers[l.w].job];
      DoStage(w, p.stage, p.result)
    else w
  }

  /** Probes report under the name of the monitor they were given. */
  ghost predicate Honest(names: seq<string>, b: Batch) {
    && |names| == |b.progress|
    && forall i :: 0 <= i < |names| ==>
      (b.progress[i].Running? || b.progress[i].Finished? ==> b.progress[i].result.monitorName == names[i])
  }

  ghost predicate Distinct(names: seq<string>) {
    forall i, j :: 0 <= i < j < |names| ==> names[i] != names[j]
  }

  /** How many stages of its probe a job has behind it. */
  function StagesDone(p: Progress): nat {
    match p
    case Running(_, stage, _) => 7 - stage.Left()
    case Finished(_) => 7
    case _ => 0
  }

  /** The world as this job alone would have made it by now. */
  function Alone(w: World, p: Progress): World {
    if p.Running? || p.Finished? then Stages(w, StagesDone(p), p.result) else w
  }

  /** Each monitor's share is what its own probe has made of it so far, all others are untouched. */
  ghost predicate Separate(names: seq<string>, b: Batch, w: World, start: World) {
    && |names| == |b.progress|
    && Filed(w) && Filed(start)
    && (forall i :: 0 <= i < |names| ==> ShareOf(w, names[i]) == ShareOf(Alone(start, b.progress[i]), names[i]))
    && (forall n :: n !in names ==> ShareOf(w, n) == ShareOf(start, n))
  }

  lemma HonestBefore(names: seq<string>, b: Batch, l: Label)
    requires Inv(b) && Enabled(b, l) && Honest(names, Next(b, l))
    ensures Honest(names, b)
  {
    hide PhaseInv;
    var t := Next(b, l);
    forall i | 0 <= i < |names| && (b.progress[i].Running? || b.progress[i].Finished?)
      ensures b.progress[i].result.monitorName == names[i]
    {
      assert t.progress[i].Running? || t.progress[i].Finished?;
      assert t.progress[i].result == b.progress[i].result;
    }
  }

  lemma StageAdvances(names: seq<string>, b: Batch, w: World, start: World, v: nat)
    requires Inv(b) && Enabled(b, StageDone(v)) && Honest(names, b)
    requires Separate(names, b, w, start)
    ensures var i := b.workers[v].job;
            ShareOf(Effect(b, w, StageDone(v)), names[i])
              == ShareOf(Alone(start, Next(b, StageDone(v)).progress[i]), names[i])
  {
    hide ShareOf, DoStage, Filed;
    var i := b.workers[v].job;
    var p, q := b.progress[i], Next(b, StageDone(v)).progress[i];
    var k, r := StagesDone(p), p.result;
    assert STAGES[k] == p.stage && StagesDone(q) == k + 1 && q.result == r;
    StagesKeepFiled(start, k, r);
    StageDependsOnShare(w, Stages(start, k, r), p.stage, r);
  }

  lemma StageStepSeparate(names: seq<string>, b: Batch, w: World, start: World, v: nat)
    requires Inv(b) && Enabled(b, StageDone(v)) && Honest(names, b) && Distinct(names)
    requires Separate(names, b, w, start)
    ensures Separate(names, Next(b, StageDone(v)), Effect(b, w, StageDone(v)), start)
  {
    var i := b.workers[v].job;
    var p, after, after' := b.progress[i], Next(b, StageDone(v)).progress, Effect(b, w, StageDone(v));
    assert after' == DoStage(w, p.stage, p.result);
    StageKeepsFiled(w, p.stage, p.result);
    StageAdvances(names, b, w, start, v);
    forall n | n != names[i] ensures ShareOf(after', n) == ShareOf(w, n) {
      StageIsLocal(w, p.stage, p.result, n);
    }
    forall j | 0 <= j < |names| ensures ShareOf(after', names[j]) == ShareOf(Alone(start, after[j]), names[j]) {
      if j != i {
        assert names[j] != names[i] && after[j] == b.progress[j];
      }
    }
  }

  lemma AloneUnchanged(b: Batch, start: World, l: Label, i: nat)
    requires Inv(b) && Enabled(b, l) && !l.StageDone? && i < |b.progress|
    ensures i < |Next(b, l).progress| && Alone(start, Next(b, l).progress[i]) == Alone(start, b.progress[i])
  {
    hide PhaseInv, DoStage;
    if Next(b, l).progress[i] != b.progress[i] {
      assert b.progress[i].NotStarted? || b.progress[i].Probing?;
    }
  }

  lemma SameJobs(b: Batch, l: Label)
    requires Enabled(b, l)
    ensures |Next(b, l).progress| == |b.progress|
  {
  }

  lemma OtherStepSeparate(names: seq<string>, b: Batch, w: World, start: World, l: Label)
    requires Inv(b) && Enabled(b, l) && !l.StageDone?
    requires Separate(names, b, w, start)
    ensures Separate(names, Next(b, l), w, start)
  {
    hide Inv, Enabled, Next, ShareOf, Filed, Alone;
    SameJobs(b, l);
    forall i | 0 <= i < |names| ensures Alone(start, Next(b, l).progress[i]) == Alone(start, b.progress[i]) {
      AloneUnchanged(b, start, l, i);
    }
  }

  lemma {:induction false} RunSeparates(names: seq<string>, b: Batch, start: World, ls: seq<Label>)
    requires Inv(b) && Distinct(names) && Filed(start)
    requires |names| == |b.progress| && forall i :: 0 <= i < |names| ==> b.progress[i].NotStarted?
    requires Run(b, ls).Some? && Honest(names, Run(b, ls).value)
    ensures Separate(names, Run(b, ls).value, WorldAfter(b, start, ls), start)
  {
    if ls != [] {
      var n := |ls| - 1;
      var m, l := Run(b, ls[..n]).value, ls[n];
      RunKeepsInv(b, ls[..n]);
      HonestBefore(names, m, l);
      RunSeparates(names, b, start, ls[..n]);
      var w := WorldAfter(b, start, ls[..n]);
      if l.StageDone? {
        StageStepSeparate(names, m, w, start, l.w);
      } else {
        OtherStepSeparate(names, m, w, start, l);
      }
    }
  }

  // ---------- one at a time ----------

  /** The results of the finished jobs among the first `k`, in list order. */
  function Results(progress: seq<Progress>, k: nat): seq<Result>
    requires k <= |progress|
  {
    if k == 0 then []
    else Results(progress, k - 1) + (if progress[k - 1].Finished? then [progress[k - 1].result] else [])
  }

  /** Probing one monitor after the other. */
  function OneAtATime(w: World, rs: seq<Result>): World {
    if rs == [] then w else ProbeOne(OneAtATime(w, rs[..|rs| - 1]), rs[|rs| - 1])
  }

  lemma ResultsGrow(b: Batch, start: World, k: nat)
    requires 0 < k <= |b.progress|
    ensures var before := OneAtATime(start, Results(b.progress, k - 1));
            OneAtATime(start, Results(b.progress, k))
              == if b.progress[k - 1].Finished? then ProbeOne(before, b.progress[k - 1].result) else before
  {
    hide ProbeOne;
    var rs := Results(b.progress, k);
    if b.progress[k - 1].Finished? {
      assert rs[..|rs| - 1] == Results(b.progress, k - 1);
    } else {
      assert rs == Results(b.progress, k - 1);
    }
  }

  lemma {:induction false} OneAtATimeFiled(b: Batch, start: World, k: nat)
    requires k <= |b.progress| && Filed(start)
    ensures Filed(OneAtATime(start, Results(b.progress, k)))
  {
    if k > 0 {
      hide Filed, Stages;
      OneAtATimeFiled(b, start, k - 1);
      ResultsGrow(b, start, k);
      if b.progress[k - 1].Finished? {
        StagesKeepFiled(OneAtATime(start, Results(b.progress, k - 1)), |STAGES|, b.progress[k - 1].result);
      }
    }
  }

  /** A monitor none of whose jobs finished among the first `k` is as it was. */
  lemma {:induction false} OneAtATimeUntouched(names: seq<string>, b: Batch, start: World, k: nat, n: string)
    requires k <= |names| && Honest(names, b) && Filed(start)
    requires forall i :: 0 <= i < k && b.progress[i].Finished? ==> names[i] != n
    ensures ShareOf(OneAtATime(start, Results(b.progress, k)), n) == ShareOf(start, n)
  {
    if k > 0 {
      hide ShareOf, Filed, Stages;
      OneAtATimeUntouched(names, b, start, k - 1, n);
      OneAtATimeFiled(b, start, k - 1);
      ResultsGrow(b, start, k);
      if b.progress[k - 1].Finished? {
        StagesAreLocal(OneAtATime(start, Results(b.progress, k - 1)), |STAGES|, b.progress[k - 1].result, n);
      }
    }
  }

  /** A monitor whose job `i` finished has been through exactly that probe. */
  lemma {:induction false} OneAtATimeProbed(names: seq<string>, b: Batch, start: World, k: nat, i: nat)
    requires i < k <= |names| && Honest(names, b) && Distinct(names) && Filed(start) && b.progress[i].Finished?
    ensures ShareOf(OneAtATime(start, Results(b.progress, k)), names[i])
      == ShareOf(ProbeOne(start, b.progress[i].result), names[i])
  {
    hide ShareOf, Filed, Stages;
    var before, p := OneAtATime(start, Results(b.progress, k - 1)), b.progress[k - 1];
    OneAtATimeFiled(b, start, k - 1);
    ResultsGrow(b, start, k);
    if i == k - 1 {
      OneAtATimeUntouched(names, b, start, k - 1, names[i]);
      StagesDependOnShare(before, start, |STAGES|, p.result);
    } else {
      OneAtATimeProbed(names, b, start, k - 1, i);
      if p.Finished? {
        assert names[i] != names[k - 1];
        StagesAreLocal(before, |STAGES|, p.result, names[i]);
      }
    }
  }

  /** One whole batch in any interleaving, with any cancellation, leaves every table and every
      monitor's sequence of alerts as if the completed probes had run one at a time in list order. */
  lemma BatchIsSequential(names: seq<string>, b: Batch, start: World, ls: seq<Label>)
    requires Inv(b) && Distinct(names) && Filed(start)
    requires |names| == |b.progress| && forall i :: 0 <= i < |names| ==> b.progress[i].NotStarted?
    requires Run(b, ls).Some? && Honest(names, Run(b, ls).value) && Run(b, ls).value.main.Returned?
    ensures var t := Run(b, ls).value;
            && SameShares(WorldAfter(b, start, ls), OneAtATime(start, Results(t.progress, |names|)))
            && Filed(WorldAfter(b, start, ls))
  {
    hide ShareOf, Filed, WorldAfter, OneAtATime, Run, Stages;
    var t := Run(b, ls).value;
    var w := WorldAfter(b, start, ls);
    RunKeepsInv(b, ls);
    ReturnedIsComplete(t);
    RunSeparates(names, b, start, ls);
    forall n ensures ShareOf(w, n) == ShareOf(OneAtATime(start, Results(t.progress, |names|)), n) {
      if i :| 0 <= i < |names| && names[i] == n && t.progress[i].Finished? {
        OneAtATimeProbed(names, t, start, |names|, i);
      } else {
        OneAtATimeUntouched(names, t, start, |names|, n);
        if n in names {
          var j :| 0 <= j < |names| && names[j] == n;
          assert t.progress[j].NotStarted?;
        }
      }
    }
  }

  // ---------- whole runs ----------

  /** One call of `runOnce`: the names it listed, its pool, and the way its goroutines ran. */
  datatype Round = Round(names: seq<string>, workers: nat, cancelled: bool, ls: seq<Label>) {
    function Begin(): Batch {
      Initial(workers, |names|, cancelled)
    }

    ghost predicate Proper() {
      && Distinct(names)
      && Run(Begin(), ls).Some?
      && Run(Begin(), ls).value.main.Returned?
      && Honest(names, Run(Begin(), ls).value)
    }

    /** What the completed probes returned, in list order. */
    function Outcome(): seq<Result>
      requires Run(Begin(), ls).Some?
    {
      Results(Run(Begin(), ls).value.progress, |Run(Begin(), ls).value.progress|)
    }
  }

  ghost predicate AllProper(rounds: seq<Round>) {
    forall i :: 0 <= i < |rounds| ==> rounds[i].Proper()
  }

  function Concurrently(w: World, rounds: seq<Round>): World {
    if rounds == [] then w
    else
      var last := rounds[|rounds| - 1];
      WorldAfter(last.Begin(), Concurrently(w, rounds[..|rounds| - 1]), last.ls)
  }

  function Sequentially(w: World, rounds: seq<Round>): World
    requires forall i :: 0 <= i < |rounds| ==> Run(rounds[i].Begin(), rounds[i].ls).Some?
  {
    if rounds == [] then w
    else OneAtATime(Sequentially(w, rounds[..|rounds| - 1]), rounds[|rounds| - 1].Outcome())
  }

  lemma {:induction false} OneAtATimeRespectsShares(w: World, v: World, rs: seq<Result>)
    requires Filed(w) && Filed(v) && SameShares(w, v)
    ensures SameShares(OneAtATime(w, rs), OneAtATime(v, rs))
    ensures Filed(OneAtATime(w, rs)) && Filed(OneAtATime(v, rs))
  {
    if rs != [] {
      var n := |rs| - 1;
      OneAtATimeRespectsShares(w, v, rs[..n]);
      var w', v', r := OneAtATime(w, rs[..n]), OneAtATime(v, rs[..n]), rs[n];
      StagesKeepFiled(w', 7, r);
      StagesKeepFiled(v', 7, r);
      forall m ensures ShareOf(ProbeOne(w', r), m) == ShareOf(ProbeOne(v', r), m) {
        assert ShareOf(w', r.monitorName) == ShareOf(v', r.monitorName);
        if m == r.monitorName {
          StagesDependOnShare(w', v', 7, r);
        } else {
          StagesAreLocal(w', 7, r, m);
          StagesAreLocal(v', 7, r, m);
          assert ShareOf(w', m) == ShareOf(v', m);
        }
      }
    }
  }

  lemma {:induction false} RoundsAreSequential(w: World, rounds: seq<Round>)
    requires Filed(w) && AllProper(rounds)
    ensures Filed(Concurrently(w, rounds)) && Filed(Sequentially(w, rounds))
    ensures SameShares(Concurrently(w, rounds), Sequentially(w, rounds))
  {
    if rounds != [] {
      hide WorldAfter, OneAtATime, ShareOf, Filed, Run, Inv;
      var n := |rounds| - 1;
      var last := rounds[n];
      assert rounds[n].Proper();
      assert AllProper(rounds[..n]);
      RoundsAreSequential(w, rounds[..n]);
      var c, q := Concurrently(w, rounds[..n]), Sequentially(w, rounds[..n]);
      InitialInv(last.workers, |last.names|, last.cancelled);
      BatchIsSequential(last.names, last.Begin(), c, last.ls);
      OneAtATimeRespectsShares(c, q, last.Outcome());
      var a, s := WorldAfter(last.Begin(), c, last.ls), OneAtATime(c, last.Outcome());
      forall m ensures ShareOf(a, m) == ShareOf(OneAtATime(q, last.Outcome()), m) {
        assert ShareOf(a, m) == ShareOf(s, m);
      }
    }
  }

  /** Interleaving independence over whole runs of the scheduler: histories, state machine,
      certificate and flap tables end identical, and the notifier is handed the same alerts of
      every monitor in the same order, as in the one-at-a-time run on the same probe results. */
  lemma InterleavingIndependence(w: World, rounds: seq<Round>)
    requires Filed(w) && AllProper(rounds)
    ensures var c, q := Concurrently(w, rounds), Sequentially(w, rounds);
            && c.history == q.history && c.track == q.track && c.certs == q.certs && c.flaps == q.flaps
            && forall n :: Filter(c.alerts, About(n)) == Filter(q.alerts, About(n))
  {
    RoundsAreSequential(w, rounds);
    SameSharesSameTables(Concurrently(w, rounds), Sequentially(w, rounds));
  }
}
