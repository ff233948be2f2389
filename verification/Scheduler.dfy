/** The scheduler object: one probe's result fed to the store, the trackers and the notifier. */
module Scheduling {
  import opened Monitoring
  import opened StateMachine
  import opened FlapDetector
  import opened CertAlarm
  import opened MemoryStore
  import opened Notify
  import opened Probe

  lemma RaisedAndTold(w: World, name: string, e: Option<Event>)
    requires w.pending == map[]
    ensures Tell(Raise(w, name, e), name) == w.(alerts := w.alerts + Listed(e))
  {
    var v := Raise(w, name, e);
    assert v.pending - {name} == map[];
  }

  /** A probe run without interruption, three stretches of stages at a time. */
  lemma Uninterrupted(w: World, r: Result)
    requires w.pending == map[]
    ensures var name := r.monitorName;
            var a := w.(history := Saved(w.history, r),
                        track := w.track[name := Step(Lookup(w.track, name), r.IsUp())],
                        alerts := w.alerts + Listed(StateAlert(w.track, r)));
            var b := a.(certs := CertAfter(a.certs, r), alerts := a.alerts + Listed(CertAlert(a.certs, r)));
            var c := b.(flaps := b.flaps[name := FlapStep(LookupFlap(b.flaps, name), r.IsUp())],
                        alerts := b.alerts + Listed(FlapAlert(b.flaps, r)));
            Probe.ProbeOne(w, r) == c
  {
    hide Step, FlapStep, StateAlert, CertAlert, FlapAlert, CertAfter, Saved, Lookup, LookupFlap;
    var name := r.monitorName;
    var saved := w.(history := Saved(w.history, r));
    var observed := saved.(track := w.track[name := Step(Lookup(w.track, name), r.IsUp())]);
    RaisedAndTold(observed, name, StateAlert(w.track, r));
    var a := Tell(Raise(observed, name, StateAlert(w.track, r)), name);
    assert a == Stages(w, 3, r) by { StagesOpen(w, 2, r); StagesOpen(w, 1, r); StagesOpen(w, 0, r); }
    var checked := a.(certs := CertAfter(a.certs, r));
    RaisedAndTold(checked, name, CertAlert(a.certs, r));
    var b := Tell(Raise(checked, name, CertAlert(a.certs, r)), name);
    assert b == Stages(w, 5, r) by { StagesOpen(w, 4, r); StagesOpen(w, 3, r); }
    var flapped := b.(flaps := b.flaps[name := FlapStep(LookupFlap(b.flaps, name), r.IsUp())]);
    RaisedAndTold(flapped, name, FlapAlert(b.flaps, r));
    assert Tell(Raise(flapped, name, FlapAlert(b.flaps, r)), name) == Stages(w, 7, r) by {
      StagesOpen(w, 6, r);
      StagesOpen(w, 5, r);
    }
  }

  /** How the world after one probe is recognised, part by part. */
  lemma AfterOneProbe(w: World, v: World, r: Result)
    requires w.pending == map[] && v.pending == map[]
    requires v.history == Saved(w.history, r)
    requires v.track == w.track[r.monitorName := Step(Lookup(w.track, r.monitorName), r.IsUp())]
    requires v.certs == CertAfter(w.certs, r)
    requires v.flaps == w.flaps[r.monitorName := FlapStep(LookupFlap(w.flaps, r.monitorName), r.IsUp())]
    requires v.alerts == w.alerts + Listed(StateAlert(w.track, r)) + Listed(CertAlert(w.certs, r))
      + Listed(FlapAlert(w.flaps, r))
    ensures v == Probe.ProbeOne(w, r)
  {
    hide Step, FlapStep, StateAlert, CertAlert, FlapAlert, CertAfter, Saved, Lookup, LookupFlap, Probe.ProbeOne;
    Uninterrupted(w, r);
  }

  /** The tracker of one monitor after one result, told by code and error. */
  ghost predicate Debounced(before: Tracker, r: Result, after: Tracker) {
    var good := r.err.None? && 200 <= r.statusCode <= 299;
    && (good ==> after == Tracker(Up, 0))
    && (!good && before.state == Down ==> after == before)
    && (!good && before.state != Down ==> after.failStreak == before.failStreak + 1)
    && (!good && before.state != Down ==> after.state == if after.failStreak >= 3 then Down else before.state)
  }

  lemma StepDebounces(t: Tracker, r: Result)
    ensures Debounced(t, r, Step(t, r.IsUp()))
  {
  }

  /** The state change handed over: every change of the debounced state but the first Up. */
  lemma StateAlertMeans(track: map<string, Tracker>, r: Result)
    ensures var n := r.monitorName;
            var before := if n in track then track[n] else Tracker(Unknown, 0);
            var after := Step(before, r.IsUp());
            && Lookup(track, n) == before && Debounced(before, r, after)
            && (StateAlert(track, r).Some? <==>
              before.state != after.state && (before.state == Unknown ==> after.state == Down))
            && (StateAlert(track, r).Some? ==>
              StateAlert(track, r).value == StateChange(n, before.state, after.state, r))
  {
  }

  /** The certificate alert handed over: below fourteen days, and not warned of already. */
  lemma CertAlertMeans(certs: map<string, bool>, r: Result)
    ensures var n, soon := r.monitorName, r.certExpiry - r.checkedAt < 1_209_600_000_000_000;
            var seen := r.certExpiry != -62_135_596_800_000_000_000;
            && (CertAlert(certs, r).Some? <==> seen && soon && !(n in certs && certs[n]))
            && (CertAlert(certs, r).Some? ==>
              CertAlert(certs, r).value == CertExpiring(n, r.certExpiry, DaysLeft(r.certExpiry, r.checkedAt)))
            && (seen ==> n in CertAfter(certs, r) && (CertAfter(certs, r)[n] <==> soon))
            && (!seen ==> CertAfter(certs, r) == certs)
  {
    UnixMeans(0);
    DaysLeftBoundary(r.certExpiry, r.checkedAt);
    hide DaysLeft;
  }

  /** The flapping alert handed over: five turns or more among the last ten results, and not warned of
      already. */
  lemma FlapAlertMeans(flaps: map<string, FlapValue>, r: Result)
    ensures var n := r.monitorName;
            var before := if n in flaps then flaps[n] else FlapValue([], false);
            var all := before.window + [r.err.None? && 200 <= r.statusCode <= 299];
            var window := if |all| <= 10 then all else all[|all| - 10..];
            && FlapStep(LookupFlap(flaps, n), r.IsUp()) == FlapValue(window, |Turns(window)| >= 5)
            && (FlapAlert(flaps, r).Some? <==> |Turns(window)| >= 5 && !before.warned)
            && (FlapAlert(flaps, r).Some? ==> FlapAlert(flaps, r).value == Flapping(n, |Turns(window)|))
  {
    FlipsMeans(FlapStep(LookupFlap(flaps, r.monitorName), r.IsUp()).window);
    hide Flips, Turns;
  }

  lemma StagesOpen(w: World, k: nat, r: Result)
    requires k < |STAGES|
    ensures Stages(w, k + 1, r) == DoStage(Stages(w, k, r), STAGES[k], r) && Stages(w, 0, r) == w
  {
  }

  class Scheduler {
    const store: Memory
    const machine: Machine
    const certs: CertTracker
    const flaps: FlapTracker
    const notifier: Child

    constructor (store: Memory, machine: Machine, certs: CertTracker, flaps: FlapTracker, notifier: Child)
      ensures this.store == store && this.machine == machine && this.certs == certs
      ensures this.flaps == flaps && this.notifier == notifier
    {
      this.store, this.machine, this.certs, this.flaps, this.notifier := store, machine, certs, flaps, notifier;
    }

    ghost predicate Valid()
      reads store, store.backing, flaps
    {
      store.Valid() && flaps.Valid()
    }

    /** The objects' state as one world; between probes no alert is pending. */
    ghost function View(): World
      reads store, machine, certs, flaps, flaps.states.Values, notifier
    {
      World(store.contents, machine.track, certs.warned, flaps.View(), map[], notifier.received)
    }

    method Send(e: Event)
      modifies notifier, notifier.journal
      ensures notifier.received == old(notifier.received) + [e]
    {
      var _ := notifier.Notify(e);
    }

    /** Feed the state machine and send the transition, if any. */
    method FollowState(r: Result)
      modifies machine, notifier, notifier.journal
      ensures machine.track ==
        old(machine.track)[r.monitorName := Step(Lookup(old(machine.track), r.monitorName), r.IsUp())]
      ensures notifier.received == old(notifier.received) + Listed(StateAlert(old(machine.track), r))
    {
      var t := machine.Observe(r);
      if t.Some? {
        Send(StateChange(t.value.monitor, t.value.from, t.value.to, t.value.result));
      }
    }

    /** Feed the certificate tracker, for a result that carries a certificate. */
    method FollowCert(m: Monitor, r: Result)
      requires r.monitorName == m.name
      modifies certs, notifier, notifier.journal
      ensures certs.warned == CertAfter(old(certs.warned), r)
      ensures notifier.received == old(notifier.received) + Listed(CertAlert(old(certs.warned), r))
    {
      hide DaysLeft;
      if r.certExpiry != ZERO_TIME {
        var daysLeft := DaysLeft(r.certExpiry, r.checkedAt);
        var warn := certs.Observe(m.name, daysLeft, true);
        if warn {
          Send(CertExpiring(m.name, r.certExpiry, daysLeft));
        }
      }
    }

    method FollowFlaps(m: Monitor, r: Result)
      requires flaps.Valid() && r.monitorName == m.name
      modifies flaps, flaps.states.Values, notifier, notifier.journal
      ensures flaps.Valid() && fresh(flaps.states.Values - old(flaps.states.Values))
      ensures flaps.View() == old(flaps.View())[m.name := FlapStep(LookupFlap(old(flaps.View()), m.name), r.IsUp())]
      ensures notifier.received == old(notifier.received) + Listed(FlapAlert(old(flaps.View()), r))
    {
      hide FlapStep, Flips;
      var flips, flapping := flaps.Observe(m.name, r.RawState() == Up);
      if flapping {
        Send(Flapping(m.name, flips));
      }
    }

    /** Save, then feed the machine and the certificate tracker. */
    method SaveAndFollow(m: Monitor, r: Result)
      requires Valid() && r.monitorName == m.name
      modifies store, store.backing, machine, certs, notifier, notifier.journal
      ensures flaps.View() == old(flaps.View())
      ensures Valid() && fresh(store.backing - old(store.backing))
      ensures store.contents == Saved(old(store.contents), r)
      ensures machine.track ==
        old(machine.track)[r.monitorName := Step(Lookup(old(machine.track), r.monitorName), r.IsUp())]
      ensures certs.warned == CertAfter(old(certs.warned), r)
      ensures notifier.received == old(notifier.received) + Listed(StateAlert(old(machine.track), r))
        + Listed(CertAlert(old(certs.warned), r))
    {
      hide Step, Lookup, StateAlert, CertAlert, CertAfter, Saved, Memory.ValidOutside;
      store.Save(r);
      FollowState(r);
      FollowCert(m, r);
    }

    /** One probe from start to end, on the prober's answer `res` and the clock's reading `now`,
        is the seven stages of the batch protocol in order. */
    method ProbeOne(m: Monitor, res: Result, now: Time)
      requires Valid() && res.monitorName == m.name
      modifies store, store.backing, machine, certs, flaps, flaps.states.Values, notifier, notifier.journal
      ensures Valid() && fresh(store.backing - old(store.backing))
      ensures fresh(flaps.states.Values - old(flaps.states.Values))
      ensures View() == Probe.ProbeOne(old(View()), res.(checkedAt := now))
    {
      hide Step, FlapStep, StateAlert, CertAlert, FlapAlert, CertAfter, Saved, Lookup, LookupFlap;
      hide Probe.ProbeOne, Memory.ValidOutside, Listed;
      var r := res.(checkedAt := now);
      ghost var w := View();
      SaveAndFollow(m, r);
      FollowFlaps(m, r);
      AfterOneProbe(w, View(), r);
    }
  }
}
