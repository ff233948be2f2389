/** What each alert says, in terms of the answers the targets gave. */
module AlertMeaning {
  import opened Monitoring
  import opened Sequences
  import opened StateMachine
  import opened FlapDetector
  import opened CertAlarm
  import opened Notify
  import opened Probe
  import opened Firings

  /** A failed request, or an answer outside the 2xx codes. */
  predicate Failed(r: Result) {
    r.err.Some? || r.statusCode < 200 || r.statusCode > 299
  }

  lemma UpsMeans(rs: seq<Result>)
    ensures |Ups(rs)| == |rs| && forall i :: 0 <= i < |rs| ==> (Ups(rs)[i] <==> !Failed(rs[i]))
  {
  }

  // ---------- state changes ----------

  /** The last three of the history failed, and no longer stretch did. */
  ghost predicate ThirdFailure(rs: seq<Result>) {
    && |rs| >= 3 && (forall i :: |rs| - 3 <= i < |rs| ==> Failed(rs[i]))
    && (|rs| > 3 ==> !Failed(rs[|rs| - 4]))
  }

  /** The first success after at least three failures. */
  ghost predicate Recovery(rs: seq<Result>) {
    && |rs| >= 4 && !Failed(rs[|rs| - 1])
    && (forall i :: |rs| - 4 <= i < |rs| - 1 ==> Failed(rs[i]))
  }

  lemma VerdictByFailures(rs: seq<Result>)
    ensures Verdict(Ups(rs)) == Down <==> |rs| >= 3 && forall i :: |rs| - 3 <= i < |rs| ==> Failed(rs[i])
    ensures Verdict(Ups(rs)) == Up <==> exists i :: 0 <= i < |rs| && i >= |rs| - 3 && !Failed(rs[i])
  {
    VerdictMeans(rs);
  }

  /** A state change is announced at the third failure in a row and at the first success after it, and
      says so: which monitor, from what to what, and by which result. */
  lemma StateFiringMeans(rs: seq<Result>)
    requires rs != []
    ensures StateFiring(rs).Some? <==> ThirdFailure(rs) || Recovery(rs)
    ensures ThirdFailure(rs) ==>
      var r := rs[|rs| - 1];
      StateFiring(rs) == Some(StateChange(r.monitorName, if |rs| == 3 then Unknown else Up, Down, r))
    ensures Recovery(rs) ==>
      var r := rs[|rs| - 1];
      StateFiring(rs) == Some(StateChange(r.monitorName, Down, Up, r))
  {
    hide Verdict, Fold, Ups, Step, Failed, StateFiring, Loud, ThirdFailure, Recovery;
    var n := |rs| - 1;
    var before := rs[..n];
    StateClosedForm(Ups(before));
    StateClosedForm(Ups(rs));
    StateAfter(before, rs[n]);
    assert before + [rs[n]] == rs;
    VerdictByFailures(rs);
    VerdictBefore(rs);
    ChangeByFailures(rs, Verdict(Ups(before)), Verdict(Ups(rs)));
  }

  lemma VerdictBefore(rs: seq<Result>)
    requires rs != []
    ensures var from := Verdict(Ups(rs[..|rs| - 1]));
            && (from == Down <==> |rs| >= 4 && forall i :: |rs| - 4 <= i < |rs| - 1 ==> Failed(rs[i]))
            && (from == Up <==> exists i :: 0 <= i < |rs| - 1 && i >= |rs| - 4 && !Failed(rs[i]))
  {
    hide Verdict, Ups, Failed;
    var before := rs[..|rs| - 1];
    VerdictByFailures(before);
    assert forall i :: 0 <= i < |before| ==> before[i] == rs[i];
  }

  /** The state before and after the last result, told by the failures. */
  lemma ChangeByFailures(rs: seq<Result>, from: State, to: State)
    requires rs != []
    requires to == Down <==> |rs| >= 3 && forall i :: |rs| - 3 <= i < |rs| ==> Failed(rs[i])
    requires to == Up <==> exists i :: 0 <= i < |rs| && i >= |rs| - 3 && !Failed(rs[i])
    requires from == Down <==> |rs| >= 4 && forall i :: |rs| - 4 <= i < |rs| - 1 ==> Failed(rs[i])
    requires from == Up <==> exists i :: 0 <= i < |rs| - 1 && i >= |rs| - 4 && !Failed(rs[i])
    ensures Loud(from, to) <==> ThirdFailure(rs) || Recovery(rs)
    ensures ThirdFailure(rs) ==> from == (if |rs| == 3 then Unknown else Up) && to == Down
    ensures Recovery(rs) ==> from == Down && to == Up
  {
    hide Failed;
  }

  lemma StateAfter(before: seq<Result>, r: Result)
    ensures var from, to := Fold(Ups(before)).state, Fold(Ups(before + [r])).state;
            StateFiring(before + [r]) ==
              if Loud(from, to) then Some(StateChange(r.monitorName, from, to, r)) else None
  {
    Extended(before, r);
    hide Step, Fold;
  }

  predicate IsChange(e: Event) {
    e.StateChange?
  }

  function ChangesOf(rs: seq<Result>): seq<Event> {
    Filter(FiringsOf(rs), IsChange)
  }

  function AsAlert(e: Event): Alert {
    if e.StateChange? then Alert(e.from, e.to) else Alert(Unknown, Unknown)
  }

  lemma OtherFirings(rs: seq<Result>)
    requires rs != []
    ensures CertFiring(rs).Some? ==> !IsChange(CertFiring(rs).value)
    ensures FlapFiring(rs).Some? ==> !IsChange(FlapFiring(rs).value)
    ensures StateFiring(rs).Some? ==> IsChange(StateFiring(rs).value)
  {
  }

  lemma FilterListed(e: Option<Event>, p: Event -> bool)
    ensures Filter(Listed(e), p) == if e.Some? && p(e.value) then Listed(e) else []
  {
    if e.Some? {
      FilterAppend([], e.value, p);
      assert [] + [e.value] == [e.value];
    }
  }

  lemma ChangesGrow(rs: seq<Result>)
    requires rs != []
    ensures ChangesOf(rs) == ChangesOf(rs[..|rs| - 1]) + Listed(StateFiring(rs))
  {
    hide StateFiring, CertFiring, FlapFiring, Filter;
    var before := FiringsOf(rs[..|rs| - 1]);
    var a, b, c := Listed(StateFiring(rs)), Listed(CertFiring(rs)), Listed(FlapFiring(rs));
    OtherFirings(rs);
    FilterListed(StateFiring(rs), IsChange);
    FilterListed(CertFiring(rs), IsChange);
    FilterListed(FlapFiring(rs), IsChange);
    FilterConcat(before, a, IsChange);
    FilterConcat(before + a, b, IsChange);
    FilterConcat(before + a + b, c, IsChange);
  }

  /** The state changes a history fires are the alerts of its debounced states. */
  lemma {:induction false} ChangesAreAlerts(rs: seq<Result>)
    ensures Map(AsAlert, ChangesOf(rs)) == Alerts(Ups(rs))
  {
    hide ChangesOf, Alerts, StateFiring, Fold, Ups, AsAlert, Map;
    if rs == [] {
      NoChanges();
    } else {
      var n := |rs| - 1;
      ChangesAreAlerts(rs[..n]);
      ChangesGrow(rs);
      assert rs[..n] + [rs[n]] == rs;
      StateAfter(rs[..n], rs[n]);
      AlertsGrow(rs);
      AsAlertsGrow(ChangesOf(rs[..n]), StateFiring(rs));
      FiredAlert(StateFiring(rs));
    }
  }

  lemma FiredAlert(e: Option<Event>)
    ensures e.Some? && e.value.StateChange? ==> AsAlert(e.value) == Alert(e.value.from, e.value.to)
  {
  }

  lemma NoChanges()
    ensures Map(AsAlert, ChangesOf([])) == [] && Alerts(Ups([])) == []
  {
    assert Ups([]) == [];
  }

  lemma {:induction false} OnlyChanges(es: seq<Event>)
    ensures forall i :: 0 <= i < |Filter(es, IsChange)| ==> IsChange(Filter(es, IsChange)[i])
  {
    if es != [] {
      OnlyChanges(es[..|es| - 1]);
    }
  }

  lemma AsAlertsGrow(cs: seq<Event>, e: Option<Event>)
    ensures Map(AsAlert, cs + Listed(e)) == Map(AsAlert, cs) + (if e.Some? then [AsAlert(e.value)] else [])
  {
  }

  lemma AlertsGrow(rs: seq<Result>)
    requires rs != []
    ensures var n := |rs| - 1;
            var from, to := Fold(Ups(rs[..n])).state, Fold(Ups(rs)).state;
            Alerts(Ups(rs)) == Alerts(Ups(rs[..n])) + (if Loud(from, to) then [Alert(from, to)] else [])
  {
    hide Fold;
    UpsOfPrefix(rs);
  }

  lemma UpsOfPrefix(rs: seq<Result>)
    requires rs != []
    ensures Ups(rs)[..|rs| - 1] == Ups(rs[..|rs| - 1])
  {
  }

  /** The state changes providers are told of alternate: down, up, down and so on, each from where the
      last one ended, the first from anything but down. */
  lemma ChangesAlternate(rs: seq<Result>)
    ensures var cs := ChangesOf(rs);
            && (forall i :: 0 <= i < |cs| ==> cs[i].StateChange? && cs[i].to == if i % 2 == 0 then Down else Up)
            && (forall i, j :: 0 <= i < |cs| && j == i + 1 < |cs| ==> cs[j].from == cs[i].to)
            && (cs != [] ==> cs[0].from != Down)
  {
    hide Alerts, FiringsOf;
    ChangesAreAlerts(rs);
    OnlyChanges(FiringsOf(rs));
    AlertBudget(Ups(rs));
    var cs, a := ChangesOf(rs), Alerts(Ups(rs));
    assert forall i :: 0 <= i < |cs| ==> a[i] == AsAlert(cs[i]) && IsChange(cs[i]);
  }

  // ---------- certificates ----------

  /** A certificate with less than fourteen days left when it was seen. */
  predicate Expiring(r: Result) {
    r.certExpiry != -62_135_596_800_000_000_000 && r.certExpiry - r.checkedAt < 1_209_600_000_000_000
  }

  /** Result `i` is the last before the newest that showed a certificate of the same monitor. */
  ghost predicate PreviousReading(rs: seq<Result>, i: nat) {
    && i < |rs| - 1
    && rs[i].monitorName == rs[|rs| - 1].monitorName && rs[i].certExpiry != -62_135_596_800_000_000_000
    && (forall j :: i < j < |rs| - 1 ==>
      rs[j].monitorName != rs[|rs| - 1].monitorName || rs[j].certExpiry == -62_135_596_800_000_000_000)
  }

  lemma {:induction false} LastReadingAt(rs: seq<Result>, name: string)
    ensures LastReading(rs, name).None? ==>
      forall i :: 0 <= i < |rs| ==> rs[i].monitorName != name || rs[i].certExpiry == ZERO_TIME
    ensures LastReading(rs, name).Some? ==> exists i ::
      && 0 <= i < |rs| && rs[i] == LastReading(rs, name).value
      && rs[i].monitorName == name && rs[i].certExpiry != ZERO_TIME
      && forall j :: i < j < |rs| ==> rs[j].monitorName != name || rs[j].certExpiry == ZERO_TIME
  {
    if rs != [] {
      var n := |rs| - 1;
      if !(rs[n].monitorName == name && HasCert(rs[n])) {
        LastReadingAt(rs[..n], name);
        if LastReading(rs[..n], name).Some? {
          var i :| 0 <= i < n && rs[..n][i] == LastReading(rs[..n], name).value
            && rs[..n][i].monitorName == name && rs[..n][i].certExpiry != ZERO_TIME
            && forall j :: i < j < n ==> rs[..n][j].monitorName != name || rs[..n][j].certExpiry == ZERO_TIME;
          assert rs[i] == rs[..n][i];
          forall j | i < j < |rs| ensures rs[j].monitorName != name || rs[j].certExpiry == ZERO_TIME {
            if j < n {
              assert rs[j] == rs[..n][j];
            }
          }
        } else {
          forall i | 0 <= i < |rs| ensures rs[i].monitorName != name || rs[i].certExpiry == ZERO_TIME {
            if i < n {
              assert rs[i] == rs[..n][i];
            }
          }
        }
      }
    }
  }

  /** A certificate alert is raised exactly at a reading below fourteen days whose previous reading, if
      there is one, was not below; it names the monitor, the expiry and the days left. */
  lemma CertFiringMeans(rs: seq<Result>)
    requires rs != []
    ensures CertFiring(rs).Some? <==>
      Expiring(rs[|rs| - 1]) && forall i: nat :: PreviousReading(rs, i) ==> !Expiring(rs[i])
    ensures CertFiring(rs).Some? ==>
      var e, r := CertFiring(rs).value, rs[|rs| - 1];
      && e.CertExpiring? && e.monitor == r.monitorName && e.certExpiry == r.certExpiry
      && e.daysLeft == DaysLeft(r.certExpiry, r.checkedAt) && e.daysLeft <= 13
  {
    var n := |rs| - 1;
    CertAlarmExact(rs, n);
    DaysLeftBoundary(rs[n].certExpiry, rs[n].checkedAt);
    LastReadingAt(rs[..n], rs[n].monitorName);
    UnixMeans(0);
    hide CertFiresAt, DaysLeft;
    var previous := LastReading(rs[..n], rs[n].monitorName);
    SoonIsExpiring(rs[n]);
    if previous.Some? {
      var i :| 0 <= i < n && rs[..n][i] == previous.value
        && rs[..n][i].monitorName == rs[n].monitorName && rs[..n][i].certExpiry != ZERO_TIME
        && forall j :: i < j < n ==> rs[..n][j].monitorName != rs[n].monitorName || rs[..n][j].certExpiry == ZERO_TIME;
      SoonIsExpiring(previous.value);
      OnePrevious(rs, rs[..n], i);
    } else {
      NonePrevious(rs, rs[..n]);
    }
  }

  lemma SoonIsExpiring(r: Result)
    ensures ExpiresSoon(r) <==> Expiring(r)
  {
    UnixMeans(0);
  }

  lemma OnePrevious(rs: seq<Result>, before: seq<Result>, i: nat)
    requires rs != [] && before == rs[..|rs| - 1]
    requires i < |before| && before[i].monitorName == rs[|rs| - 1].monitorName && before[i].certExpiry != ZERO_TIME
    requires forall j :: i < j < |before| ==>
      before[j].monitorName != rs[|rs| - 1].monitorName || before[j].certExpiry == ZERO_TIME
    ensures forall k: nat :: PreviousReading(rs, k) <==> k == i
  {
    UnixMeans(0);
    assert forall j :: 0 <= j < |before| ==> before[j] == rs[j];
  }

  lemma NonePrevious(rs: seq<Result>, before: seq<Result>)
    requires rs != [] && before == rs[..|rs| - 1]
    requires forall i :: 0 <= i < |before| ==>
      before[i].monitorName != rs[|rs| - 1].monitorName || before[i].certExpiry == ZERO_TIME
    ensures forall k: nat :: !PreviousReading(rs, k)
  {
    UnixMeans(0);
    assert forall j :: 0 <= j < |before| ==> before[j] == rs[j];
  }

  // ---------- flapping ----------

  /** How often neighbours among the last ten results differ in being up. */
  function RecentTurns(rs: seq<Result>): nat {
    var ups := Ups(rs);
    |Turns(if |ups| <= 10 then ups else ups[|ups| - 10..])|
  }

  lemma TurnsByWindow(rs: seq<Result>)
    ensures WindowFlips(Ups(rs)) == RecentTurns(rs)
  {
    FlipsMeans(LastN(Ups(rs), FLAP_WINDOW));
  }

  /** A flapping alert is raised exactly when the turns among the last ten results reach five; it names
      the monitor and reports five. */
  lemma FlapFiringMeans(rs: seq<Result>)
    requires rs != []
    ensures FlapFiring(rs).Some? <==> RecentTurns(rs) >= 5 && RecentTurns(rs[..|rs| - 1]) < 5
    ensures FlapFiring(rs).Some? ==> FlapFiring(rs) == Some(Flapping(rs[|rs| - 1].monitorName, 5))
  {
    var n := |rs| - 1;
    hide Turns, FlapStep, Flips;
    UpsOfPrefix(rs);
    FlapAlertExact(Ups(rs), n);
    FlapWindow(Ups(rs));
    assert Ups(rs)[..n + 1] == Ups(rs);
    FlapFoldStep(Ups(rs));
    TurnsByWindow(rs);
    TurnsByWindow(rs[..n]);
  }

  lemma FlapFoldStep(ups: seq<bool>)
    requires ups != []
    ensures FlapFold(ups) == FlapStep(FlapFold(ups[..|ups| - 1]), ups[|ups| - 1])
  {
  }
}
