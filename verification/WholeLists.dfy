/** What one batch adds to what the trackers have observed: one result of every listed monitor. */
module WholeLists {
  import opened Monitoring
  import opened Sequences
  import opened ProbeBatch
  import opened Probe
  import opened Agreement
  import Interleaving

  /** The events from one begin of a batch to its return. */
  ghost predicate OneBatch(es: seq<Happening>) {
    && |es| >= 2 && es[0] == BeginBatch && es[|es| - 1] == BatchStep(Return)
    && forall i :: 0 < i < |es| - 1 ==> es[i] != BatchStep(Return)
  }

  /** What a job has given the trackers so far. */
  function Given(p: Progress): seq<Result> {
    if p.Finished? || (p.Running? && Interleaving.StagesDone(p) >= 2) then [p.result] else []
  }

  /** Every job has added to what was observed of its monitor what it has given, nobody else anything. */
  ghost predicate Adds(
    names: seq<string>, was: map<string, seq<Result>>, observed: map<string, seq<Result>>, progress: seq<Progress>)
  {
    && |progress| == |names|
    && (forall i :: 0 <= i < |names| ==> Seen(observed, names[i]) == Seen(was, names[i]) + Given(progress[i]))
    && (forall n :: n !in names ==> Seen(observed, n) == Seen(was, n))
  }

  /** Inside a batch begun on the list `names`, when `was` had been observed. */
  ghost predicate During(names: seq<string>, was: map<string, seq<Result>>, d: Daemon) {
    && BatchSound(d) && d.phase.InBatch? && d.phase.names == names
    && Adds(names, was, d.observed, d.phase.batch.progress)
  }

  lemma BatchBegins(d: Daemon)
    requires BatchSound(d) && CanHappen(d, BeginBatch)
    ensures During(NamesOf(d.list), d.observed, Happen(d, BeginBatch))
  {
    EventSound(d, BeginBatch);
  }

  lemma AddsSame(
    names: seq<string>, was: map<string, seq<Result>>, observed: map<string, seq<Result>>, progress: seq<Progress>,
    after: seq<Progress>)
    requires Adds(names, was, observed, progress) && |after| == |progress|
    requires forall j :: 0 <= j < |progress| ==> Given(after[j]) == Given(progress[j])
    ensures Adds(names, was, observed, after)
  {
    hide Given;
  }

  lemma AddsOne(
    names: seq<string>, was: map<string, seq<Result>>, observed: map<string, seq<Result>>, progress: seq<Progress>,
    after: seq<Progress>, i: nat, r: Result)
    requires Adds(names, was, observed, progress) && |after| == |progress| && i < |names|
    requires Interleaving.Distinct(names) && Given(progress[i]) == [] && Given(after[i]) == [r]
    requires forall j :: 0 <= j < |progress| && j != i ==> after[j] == progress[j]
    ensures Adds(names, was, observed[names[i] := Seen(observed, names[i]) + [r]], after)
  {
    hide Given, Seen;
    var more := observed[names[i] := Seen(observed, names[i]) + [r]];
    forall n ensures Seen(more, n) == if n == names[i] then Seen(observed, n) + [r] else Seen(observed, n) {
      SeenUpdated(observed, names[i], Seen(observed, names[i]) + [r], n);
    }
    forall j | 0 <= j < |names| ensures Seen(more, names[j]) == Seen(was, names[j]) + Given(after[j]) {
      if j != i {
        assert names[j] != names[i];
      }
    }
  }

  lemma SeenUpdated(observed: map<string, seq<Result>>, k: string, v: seq<Result>, n: string)
    ensures Seen(observed[k := v], n) == if n == k then v else Seen(observed, n)
  {
  }

  /** What a stage changes besides the shared world. */
  lemma StageSeen(d: Daemon, v: nat)
    requires BatchSound(d) && CanHappen(d, BatchStep(StageDone(v)))
    ensures var b, t := d.phase.batch, Happen(d, BatchStep(StageDone(v)));
            var i := b.workers[v].job;
            && i < |d.phase.names| == |b.progress|
            && t.phase == InBatch(d.phase.names, Next(b, StageDone(v)))
            && t.observed == if !b.progress[i].stage.Debouncing? then d.observed
                             else d.observed[d.phase.names[i] :=
                               Seen(d.observed, d.phase.names[i]) + [b.progress[i].result]]
  {
    StageInPlace(d.phase.batch, v);
    hide Inv, DoStage, Given, Seen;
  }

  lemma StageFits(d: Daemon, v: nat)
    requires BatchSound(d) && CanHappen(d, BatchStep(StageDone(v)))
    ensures var b, t := d.phase.batch, Next(d.phase.batch, StageDone(v));
            var i := b.workers[v].job;
            && i < |b.progress| && |t.progress| == |b.progress|
            && (forall j :: 0 <= j < |b.progress| && j != i ==> t.progress[j] == b.progress[j])
            && Given(t.progress[i]) ==
              (if b.progress[i].stage.Debouncing? then [b.progress[i].result] else Given(b.progress[i]))
            && (b.progress[i].stage.Debouncing? ==> Given(b.progress[i]) == [])
  {
    hide Inv, Given, Next, Interleaving.Honest, Interleaving.Distinct;
    StageInPlace(d.phase.batch, v);
  }

  lemma NamesApart(d: Daemon)
    requires BatchSound(d) && d.phase.InBatch?
    ensures Interleaving.Distinct(d.phase.names)
  {
  }

  /** A stage adds to the observed results exactly what it adds to what its job has given. */
  lemma StageGives(names: seq<string>, was: map<string, seq<Result>>, d: Daemon, v: nat)
    requires During(names, was, d) && CanHappen(d, BatchStep(StageDone(v)))
    ensures During(names, was, Happen(d, BatchStep(StageDone(v))))
  {
    BatchStepSound(d, StageDone(v));
    StageSeen(d, v);
    StageFits(d, v);
    var b := d.phase.batch;
    var i, after := b.workers[v].job, Next(b, StageDone(v)).progress;
    NamesApart(d);
    hide BatchSound, CanHappen, Happen, Adds, Given, Seen, Enabled, Next, Interleaving.Distinct;
    StageAdds(names, was, d.observed, b.progress, after, i, b.progress[i].stage, b.progress[i].result);
  }

  lemma StageAdds(
    names: seq<string>, was: map<string, seq<Result>>, observed: map<string, seq<Result>>, progress: seq<Progress>,
    after: seq<Progress>, i: nat, stage: Stage, r: Result)
    requires Adds(names, was, observed, progress) && |after| == |progress| && i < |names|
    requires Interleaving.Distinct(names)
    requires Given(after[i]) == (if stage.Debouncing? then [r] else Given(progress[i]))
    requires stage.Debouncing? ==> Given(progress[i]) == []
    requires forall j :: 0 <= j < |progress| && j != i ==> after[j] == progress[j]
    ensures var more := observed[names[i] := Seen(observed, names[i]) + [r]];
            Adds(names, was, if stage.Debouncing? then more else observed, after)
  {
    hide Given, Seen, Adds, Interleaving.Distinct;
    assert |progress| == |names| by {
      AddsSizes(names, was, observed, progress);
    }
    if stage.Debouncing? {
      AddsOne(names, was, observed, progress, after, i, r);
    } else {
      AddsSame(names, was, observed, progress, after);
    }
  }

  lemma AddsSizes(
    names: seq<string>, was: map<string, seq<Result>>, observed: map<string, seq<Result>>, progress: seq<Progress>)
    requires Adds(names, was, observed, progress)
    ensures |progress| == |names|
  {
  }

  lemma StageInPlace(b: Batch, v: nat)
    requires Inv(b) && Enabled(b, StageDone(v)) && !b.main.Returned?
    ensures var i, t := b.workers[v].job, Next(b, StageDone(v));
            && i < |b.progress| && |t.progress| == |b.progress| && !t.main.Returned?
            && (forall j :: 0 <= j < |b.progress| && j != i ==> t.progress[j] == b.progress[j])
            && Given(t.progress[i]) ==
              (if b.progress[i].stage.Debouncing? then [b.progress[i].result] else Given(b.progress[i]))
            && (b.progress[i].stage.Debouncing? ==> Given(b.progress[i]) == [])
  {
    hide PhaseInv;
  }

  lemma OtherStepGives(b: Batch, l: Label)
    requires Inv(b) && Enabled(b, l) && !l.StageDone? && !l.Return? && !b.main.Returned?
    ensures var t := Next(b, l);
            |t.progress| == |b.progress| && !t.main.Returned?
            && forall j :: 0 <= j < |b.progress| ==> Given(t.progress[j]) == Given(b.progress[j])
  {
    hide PhaseInv;
  }

  lemma StepGives(names: seq<string>, was: map<string, seq<Result>>, d: Daemon, l: Label)
    requires During(names, was, d) && CanHappen(d, BatchStep(l)) && !l.StageDone? && !l.Return?
    ensures During(names, was, Happen(d, BatchStep(l)))
  {
    BatchStepSound(d, l);
    OtherStepGives(d.phase.batch, l);
    hide Inv, DoStage, Adds, Given, Next, Enabled;
    AddsSame(names, was, d.observed, d.phase.batch.progress, Next(d.phase.batch, l).progress);
  }

  lemma OutsideGives(names: seq<string>, was: map<string, seq<Result>>, d: Daemon, e: Happening)
    requires During(names, was, d) && CanHappen(d, e) && !e.BatchStep?
    ensures During(names, was, Happen(d, e))
  {
    EventSound(d, e);
    hide BatchSound, Adds, Given, Enabled;
    if e.Cancel? {
      assert Next(d.phase.batch, Label.Cancel).progress == d.phase.batch.progress;
    }
  }

  lemma EventGives(names: seq<string>, was: map<string, seq<Result>>, d: Daemon, e: Happening)
    requires During(names, was, d) && CanHappen(d, e) && e != BatchStep(Return)
    ensures During(names, was, Happen(d, e))
  {
    hide During, CanHappen, Happen;
    if !e.BatchStep? {
      OutsideGives(names, was, d, e);
    } else if e.step.StageDone? {
      StageGives(names, was, d, e.step.w);
    } else {
      StepGives(names, was, d, e.step);
    }
  }

  lemma {:induction false} LifeConcat(d: Daemon, xs: seq<Happening>, ys: seq<Happening>)
    requires Life(d, xs + ys).Some?
    ensures Life(d, xs).Some? && Life(d, xs + ys) == Life(Life(d, xs).value, ys)
  {
    if ys == [] {
      assert xs + ys == xs;
    } else {
      var n := |ys| - 1;
      assert (xs + ys)[..|xs + ys| - 1] == xs + ys[..n];
      LifeConcat(d, xs, ys[..n]);
    }
  }

  lemma {:induction false} BatchUnderWay(d: Daemon, es: seq<Happening>)
    requires BatchSound(d) && Life(d, es).Some? && es != [] && es[0] == BeginBatch
    requires forall i :: 0 < i < |es| ==> es[i] != BatchStep(Return)
    ensures During(NamesOf(d.list), d.observed, Life(d, es).value)
  {
    var n := |es| - 1;
    if n == 0 {
      assert Life(d, es[..0]) == Some(d);
      BatchBegins(d);
    } else {
      hide During, CanHappen, Happen, BatchSound;
      BatchUnderWay(d, es[..n]);
      EventGives(NamesOf(d.list), d.observed, Life(d, es[..n]).value, es[n]);
    }
  }

  /** When the batch returns, every job has given its one result, or was aborted by the cancellation. */
  lemma BatchReturns(names: seq<string>, was: map<string, seq<Result>>, d: Daemon, i: nat)
    requires During(names, was, d) && CanHappen(d, BatchStep(Return)) && i < |names|
    ensures |Given(d.phase.batch.progress[i])| == 1 || (d.cancelled && Given(d.phase.batch.progress[i]) == [])
    ensures forall r :: r in Given(d.phase.batch.progress[i]) ==> r.monitorName == names[i]
  {
    InvKept(d.phase.batch, Return);
    ReturnedIsComplete(Next(d.phase.batch, Return));
    hide Inv;
  }

  /** One batch of the scheduler, in any life, whatever reloads and sweeps happen meanwhile: with no
      cancellation every monitor of the list it began with is observed exactly once more; with one,
      at most once more; and nobody else is. */
  lemma BatchProbesWholeList(pool: nat, now: Time, before: seq<Happening>, es: seq<Happening>, n: string)
    requires Life(Fresh(pool, now), before + es).Some? && OneBatch(es)
    ensures Life(Fresh(pool, now), before).Some?
    ensures var d, t := Life(Fresh(pool, now), before).value, Life(Fresh(pool, now), before + es).value;
            var was, seen := Seen(d.observed, n), Seen(t.observed, n);
            && t.phase.Between?
            && |was| <= |seen| <= |was| + 1 && seen[..|was|] == was
            && ((forall m :: m in d.list ==> m.name != n) ==> seen == was)
            && ((exists m :: m in d.list && m.name == n) && !t.cancelled ==> |seen| == |was| + 1)
            && (|seen| == |was| + 1 ==> seen[|was|].monitorName == n)
  {
    hide Life, BatchSound, AgreesOn, During, CanHappen, Happen;
    LifeConcat(Fresh(pool, now), before, es);
    LifeAgrees(pool, now, before, n);
    var d, last := Life(Fresh(pool, now), before).value, |es| - 1;
    LastEvent(d, es);
    BatchUnderWay(d, es[..last]);
    BatchAdds(d.list, d.observed, Life(d, es[..last]).value, n);
  }

  lemma LastEvent(d: Daemon, es: seq<Happening>)
    requires es != [] && Life(d, es).Some?
    ensures var m := Life(d, es[..|es| - 1]);
            m.Some? && CanHappen(m.value, es[|es| - 1]) && Life(d, es) == Some(Happen(m.value, es[|es| - 1]))
  {
    hide CanHappen, Happen;
  }

  /** What the return leaves observed of any name. */
  lemma BatchAdds(ms: seq<Monitor>, was: map<string, seq<Result>>, d: Daemon, n: string)
    requires During(NamesOf(ms), was, d) && CanHappen(d, BatchStep(Return))
    ensures var t := Happen(d, BatchStep(Return));
            var seen := Seen(t.observed, n);
            && t.phase.Between? && t.cancelled == d.cancelled
            && |Seen(was, n)| <= |seen| <= |Seen(was, n)| + 1 && seen[..|Seen(was, n)|] == Seen(was, n)
            && ((forall m :: m in ms ==> m.name != n) ==> seen == Seen(was, n))
            && ((exists m :: m in ms && m.name == n) && !d.cancelled ==> |seen| == |Seen(was, n)| + 1)
            && (|seen| == |Seen(was, n)| + 1 ==> seen[|Seen(was, n)|].monitorName == n)
  {
    var names := NamesOf(ms);
    hide BatchSound, Seen, Given;
    if n in names {
      var i :| 0 <= i < |names| && names[i] == n;
      assert ms[i] in ms && ms[i].name == n;
      BatchReturns(names, was, d, i);
    } else {
      forall x | x in ms ensures x.name != n {
        var i :| 0 <= i < |ms| && ms[i] == x;
        assert names[i] == x.name;
      }
    }
  }

  // ---------- reloads and sweeps in the middle of a batch ----------

  ghost predicate Leads(d: Daemon, t: Daemon) {
    exists es :: Life(d, es) == Some(t)
  }

  lemma Onward(d: Daemon, t: Daemon, e: Happening)
    requires Leads(d, t) && CanHappen(t, e)
    ensures Leads(d, Happen(t, e))
  {
    hide CanHappen, Happen;
    var es :| Life(d, es) == Some(t);
    assert (es + [e])[..|es|] == es;
    assert Life(d, es + [e]) == Some(Happen(t, e));
  }

  lemma ToProbe(d: Daemon, t: Daemon, a: Monitor) returns (u: Daemon)
    requires Leads(d, t) && t.phase.First? && !t.cancelled && t.pool == 1 && t.world == EMPTY_WORLD
    ensures Leads(d, u) && u.phase.InBatch? && u.phase.names == [a.name] && u.world == EMPTY_WORLD && u.now == t.now
    ensures var b := u.phase.batch;
            && |b.workers| == 1 && |b.dispatchers| == 1 && !b.closed && !b.main.Returned?
            && b.workers[0].Receiving? && b.dispatchers[0].Sending? && b.progress == [NotStarted]
  {
    hide Leads;
    Onward(d, t, Sync([a]));
    u := Happen(t, Sync([a]));
    assert u.world == EMPTY_WORLD;
    Onward(d, u, BeginBatch);
    u := Happen(u, BeginBatch);
    Onward(d, u, BatchStep(Start));
    u := Happen(u, BatchStep(Start));
    Onward(d, u, BatchStep(Start));
    u := Happen(u, BatchStep(Start));
    Onward(d, u, BatchStep(TimerFires(0)));
    u := Happen(u, BatchStep(TimerFires(0)));
  }

  /** The probe has returned, its result is still to be saved. */
  lemma ToResult(d: Daemon, t: Daemon, r: Result) returns (u: Daemon)
    requires Leads(d, t) && t.phase.InBatch? && t.phase.names == [r.monitorName]
    requires t.world == EMPTY_WORLD && r.checkedAt == t.now
    requires var b := t.phase.batch;
             && |b.workers| == 1 && |b.dispatchers| == 1 && !b.closed && !b.main.Returned?
             && b.workers[0].Receiving? && b.dispatchers[0].Sending? && b.progress == [NotStarted]
    ensures Leads(d, u) && u.phase.InBatch? && u.world == EMPTY_WORLD
    ensures u.phase.batch.workers == [Busy(0)] && u.phase.batch.progress == [Running(0, Saving, r)]
    ensures !u.phase.batch.main.Returned?
  {
    hide Leads;
    Onward(d, t, BatchStep(Rendezvous(0, 0)));
    u := Happen(t, BatchStep(Rendezvous(0, 0)));
    Onward(d, u, BatchStep(ProbeReturns(0, r)));
    u := Happen(u, BatchStep(ProbeReturns(0, r)));
  }

  /** A probe in flight outlives a reload that drops its monitor, and a sweep: its result is saved all
      the same, so the store can hold histories of monitors that are not listed. */
  lemma InFlightOutlivesReload(now: Time, a: Monitor, b: Monitor, r: Result) returns (t: Daemon)
    requires r.monitorName == a.name != b.name && r.checkedAt == now
    ensures Leads(Fresh(1, now), t)
    ensures t.list == [b] && a.name in t.world.history && t.world.history[a.name] == [r]
  {
    hide Leads;
    var d := Fresh(1, now);
    assert Leads(d, d) by {
      NoEvents(d);
    }
    t := ToProbe(d, d, a);
    t := ToResult(d, t, r);
    Onward(d, t, Sync([b]));
    t := Happen(t, Sync([b]));
    Onward(d, t, Prune(now + 1));
    t := Happen(t, Prune(now + 1));
    assert t.world.history == map[];
    Onward(d, t, BatchStep(StageDone(0)));
    t := Happen(t, BatchStep(StageDone(0)));
  }

  lemma NoEvents(d: Daemon)
    ensures Leads(d, d)
  {
    assert Life(d, []) == Some(d);
  }
}
