/** What one probe does to the daemon's shared state, stage by stage. */
module Probe {
  import opened Monitoring
  import opened Sequences
  import opened StateMachine
  import opened FlapDetector
  import opened CertAlarm
  import opened MemoryStore
  import opened Notify
  import opened ProbeBatch

  /** The state probes share: the store's histories, the three trackers, and the alerts handed to
      the notifier. `pending` holds, per monitor, an alert its probe is about to hand over. */
  datatype World = World(
    history: Histories,
    track: map<string, Tracker>,
    certs: map<string, bool>,
    flaps: map<string, FlapValue>,
    pending: map<string, Event>,
    alerts: seq<Event>
  )

  function Listed(e: Option<Event>): seq<Event> {
    if e.Some? then [e.value] else []
  }

  function StateAlert(track: map<string, Tracker>, r: Result): Option<Event> {
    match Announcement(Lookup(track, r.monitorName), r)
    case None => None
    case Some(t) => Some(StateChange(t.monitor, t.from, t.to, t.result))
  }

  function CertAlert(certs: map<string, bool>, r: Result): Option<Event> {
    var left := DaysLeft(r.certExpiry, r.checkedAt);
    if CertFires(certs, r.monitorName, left, HasCert(r)) then Some(CertExpiring(r.monitorName, r.certExpiry, left))
    else None
  }

  function FlapAlert(flaps: map<string, FlapValue>, r: Result): Option<Event> {
    var v := LookupFlap(flaps, r.monitorName);
    if FlapFires(v, r.IsUp()) then Some(Flapping(r.monitorName, Flips(FlapStep(v, r.IsUp()).window))) else None
  }

  function Raise(w: World, name: string, e: Option<Event>): World {
    w.(pending := if e.Some? then w.pending[name := e.value] else w.pending - {name})
  }

  function Tell(w: World, name: string): World {
    if name in w.pending then w.(pending := w.pending - {name}, alerts := w.alerts + [w.pending[name]]) else w
  }

  function DoStage(w: World, stage: Stage, r: Result): World {
    var name := r.monitorName;
    match stage
    case Saving => w.(history := Saved(w.history, r))
    case Debouncing =>
      Raise(w.(track := w.track[name := Step(Lookup(w.track, name), r.IsUp())]), name, StateAlert(w.track, r))
    case CertChecking => Raise(w.(certs := CertAfter(w.certs, r)), name, CertAlert(w.certs, r))
    case FlapChecking =>
      Raise(w.(flaps := w.flaps[name := FlapStep(LookupFlap(w.flaps, name), r.IsUp())]), name, FlapAlert(w.flaps, r))
    case _ => Tell(w, name)
  }

  const STAGES: seq<Stage> :=
    [Saving, Debouncing, TellingState, CertChecking, TellingCert, FlapChecking, TellingFlap]

  /** The first `k` stages of one probe, run without interruption. */
  function Stages(w: World, k: nat, r: Result): World
    requires k <= |STAGES|
  {
    if k == 0 then w else DoStage(Stages(w, k - 1, r), STAGES[k - 1], r)
  }

  function ProbeOne(w: World, r: Result): World {
    Stages(w, |STAGES|, r)
  }

  // ---------- one monitor's share of the world ----------

  datatype Share = Share(
    history: Option<seq<Result>>,
    track: Option<Tracker>,
    cert: Option<bool>,
    flap: Option<FlapValue>,
    pending: Option<Event>,
    alerts: seq<Event>
  )

  function Find<K, V>(m: map<K, V>, k: K): Option<V> {
    if k in m then Some(m[k]) else None
  }

  function About(name: string): Event -> bool {
    (e: Event) => e.monitor == name
  }

  function ShareOf(w: World, name: string): Share {
    Share(Find(w.history, name), Find(w.track, name), Find(w.certs, name), Find(w.flaps, name),
          Find(w.pending, name), Filter(w.alerts, About(name)))
  }

  /** Pending alerts are filed under the monitor they are about. */
  ghost predicate Filed(w: World) {
    forall n :: n in w.pending ==> w.pending[n].monitor == n
  }

  lemma StageKeepsFiled(w: World, stage: Stage, r: Result)
    requires Filed(w)
    ensures Filed(DoStage(w, stage, r))
  {
  }

  /** A stage of one monitor's probe leaves every other monitor's share alone. */
  lemma StageIsLocal(w: World, stage: Stage, r: Result, other: string)
    requires Filed(w) && other != r.monitorName
    ensures ShareOf(DoStage(w, stage, r), other) == ShareOf(w, other)
  {
    if r.monitorName in w.pending {
      FilterAppend(w.alerts, w.pending[r.monitorName], About(other));
    }
  }

  lemma RaiseShare(w: World, name: string, e: Option<Event>)
    ensures ShareOf(Raise(w, name, e), name) == ShareOf(w, name).(pending := e)
  {
  }

  lemma TellShare(w: World, name: string)
    requires Filed(w)
    ensures var s := ShareOf(w, name);
            ShareOf(Tell(w, name), name) == s.(pending := None,
              alerts := s.alerts + (if s.pending.Some? then [s.pending.value] else []))
  {
    if name in w.pending {
      FilterAppend(w.alerts, w.pending[name], About(name));
    }
  }

  /** What a stage does to its own monitor's share, told by the share alone. */
  function ShareStage(s: Share, stage: Stage, r: Result): Share {
    var name := r.monitorName;
    var track := if s.track.Some? then map[name := s.track.value] else map[];
    var certs := if s.cert.Some? then map[name := s.cert.value] else map[];
    var flaps := if s.flap.Some? then map[name := s.flap.value] else map[];
    match stage
    case Saving =>
      s.(history := Some(LastN((if s.history.Some? then s.history.value else []) + [r], HISTORY_SIZE)))
    case Debouncing =>
      s.(track := Some(Step(Lookup(track, name), r.IsUp())), pending := StateAlert(track, r))
    case CertChecking => s.(cert := Find(CertAfter(certs, r), name), pending := CertAlert(certs, r))
    case FlapChecking =>
      s.(flap := Some(FlapStep(LookupFlap(flaps, name), r.IsUp())), pending := FlapAlert(flaps, r))
    case _ => s.(pending := None, alerts := s.alerts + (if s.pending.Some? then [s.pending.value] else []))
  }

  lemma StageOnShare(w: World, stage: Stage, r: Result)
    requires Filed(w)
    ensures ShareOf(DoStage(w, stage, r), r.monitorName) == ShareStage(ShareOf(w, r.monitorName), stage, r)
  {
    var name := r.monitorName;
    match stage
    case Saving =>
    case Debouncing =>
      RaiseShare(w.(track := w.track[name := Step(Lookup(w.track, name), r.IsUp())]), name, StateAlert(w.track, r));
    case CertChecking => RaiseShare(w.(certs := CertAfter(w.certs, r)), name, CertAlert(w.certs, r));
    case FlapChecking =>
      var after := w.(flaps := w.flaps[name := FlapStep(LookupFlap(w.flaps, name), r.IsUp())]);
      RaiseShare(after, name, FlapAlert(w.flaps, r));
    case _ => TellShare(w, name);
  }

  /** What a stage does to its own monitor's share depends on that share alone. */
  lemma StageDependsOnShare(w: World, v: World, stage: Stage, r: Result)
    requires Filed(w) && Filed(v) && ShareOf(w, r.monitorName) == ShareOf(v, r.monitorName)
    ensures ShareOf(DoStage(w, stage, r), r.monitorName) == ShareOf(DoStage(v, stage, r), r.monitorName)
  {
    StageOnShare(w, stage, r);
    StageOnShare(v, stage, r);
  }

  lemma {:induction false} StagesKeepFiled(w: World, k: nat, r: Result)
    requires k <= |STAGES| && Filed(w)
    ensures Filed(Stages(w, k, r))
  {
    if k > 0 {
      StagesKeepFiled(w, k - 1, r);
      StageKeepsFiled(Stages(w, k - 1, r), STAGES[k - 1], r);
    }
  }

  lemma {:induction false} StagesAreLocal(w: World, k: nat, r: Result, other: string)
    requires k <= |STAGES| && Filed(w) && other != r.monitorName
    ensures ShareOf(Stages(w, k, r), other) == ShareOf(w, other)
  {
    if k > 0 {
      StagesAreLocal(w, k - 1, r, other);
      StagesKeepFiled(w, k - 1, r);
      StageIsLocal(Stages(w, k - 1, r), STAGES[k - 1], r, other);
    }
  }

  lemma {:induction false} StagesDependOnShare(w: World, v: World, k: nat, r: Result)
    requires k <= |STAGES| && Filed(w) && Filed(v)
    requires ShareOf(w, r.monitorName) == ShareOf(v, r.monitorName)
    ensures ShareOf(Stages(w, k, r), r.monitorName) == ShareOf(Stages(v, k, r), r.monitorName)
  {
    if k > 0 {
      StagesDependOnShare(w, v, k - 1, r);
      StagesKeepFiled(w, k - 1, r);
      StagesKeepFiled(v, k - 1, r);
      StageDependsOnShare(Stages(w, k - 1, r), Stages(v, k - 1, r), STAGES[k - 1], r);
    }
  }

  /** Worlds that agree on every monitor have the same tables; only the order of alerts of
      different monitors may differ. */
  ghost predicate SameShares(w: World, v: World) {
    forall n :: ShareOf(w, n) == ShareOf(v, n)
  }

  lemma SameKeysAndValues<V>(a: map<string, V>, b: map<string, V>)
    requires forall n :: Find(a, n) == Find(b, n)
    ensures a == b
  {
    forall n ensures n in a <==> n in b {
      assert Find(a, n) == Find(b, n);
    }
    forall n | n in a ensures a[n] == b[n] {
      assert Find(a, n) == Find(b, n);
    }
  }

  lemma SameSharesSameTables(w: World, v: World)
    requires SameShares(w, v)
    ensures w.history == v.history && w.track == v.track && w.certs == v.certs
      && w.flaps == v.flaps && w.pending == v.pending
    ensures forall n :: Filter(w.alerts, About(n)) == Filter(v.alerts, About(n))
  {
    forall n
      ensures Find(w.history, n) == Find(v.history, n) && Find(w.track, n) == Find(v.track, n)
        && Find(w.certs, n) == Find(v.certs, n) && Find(w.flaps, n) == Find(v.flaps, n)
        && Find(w.pending, n) == Find(v.pending, n) && Filter(w.alerts, About(n)) == Filter(v.alerts, About(n))
    {
      assert ShareOf(w, n) == ShareOf(v, n);
    }
    SameKeysAndValues(w.history, v.history);
    SameKeysAndValues(w.track, v.track);
    SameKeysAndValues(w.certs, v.certs);
    SameKeysAndValues(w.flaps, v.flaps);
    SameKeysAndValues(w.pending, v.pending);
  }
}
