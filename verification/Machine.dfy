/** The debounced state machine: three consecutive failures go down, one success comes back up. */
module StateMachine {
  import opened Monitoring
  import opened Sequences

  const FAIL_THRESHOLD: nat := 3

  datatype Tracker = Tracker(state: State, failStreak: nat)

  /** The zero value found for a monitor never observed before. */
  const FRESH := Tracker(Unknown, 0)

  datatype Transition = Transition(monitor: string, from: State, to: State, result: Result)

  function Lookup(track: map<string, Tracker>, name: string): Tracker {
    if name in track then track[name] else FRESH
  }

  function Step(t: Tracker, up: bool): Tracker {
    if up then Tracker(Up, 0)
    else if t.state == Down then t
    else Tracker(if t.failStreak + 1 >= FAIL_THRESHOLD then Down else t.state, t.failStreak + 1)
  }

  /** Every change of state is announced except the silent first Up. */
  predicate Loud(from: State, to: State) {
    from != to && !(from == Unknown && to == Up)
  }

  function Announcement(t: Tracker, r: Result): Option<Transition> {
    var to := Step(t, r.IsUp()).state;
    if Loud(t.state, to) then Some(Transition(r.monitorName, t.state, to, r)) else None
  }

  class Machine {
    var track: map<string, Tracker>

    constructor ()
      ensures track == map[]
    {
      track := map[];
    }

    method Observe(r: Result) returns (t: Option<Transition>)
      modifies this
      ensures track == old(track)[r.monitorName := Step(Lookup(old(track), r.monitorName), r.IsUp())]
      ensures t == Announcement(Lookup(old(track), r.monitorName), r)
      ensures r.monitorName in track
      ensures forall n :: n != r.monitorName ==> (n in track <==> n in old(track))
      ensures forall n :: n != r.monitorName && n in track ==> track[n] == old(track)[n]
      ensures var before := if r.monitorName in old(track) then old(track)[r.monitorName] else Tracker(Unknown, 0);
              var after, good := track[r.monitorName], r.err.None? && 200 <= r.statusCode <= 299;
              && (good ==> after == Tracker(Up, 0))
              && (!good && before.state == Down ==> after == before)
              && (!good && before.state != Down ==> after.failStreak == before.failStreak + 1)
              && (!good && before.state != Down && after.failStreak >= 3 ==> after.state == Down)
              && (!good && before.state != Down && after.failStreak < 3 ==> after.state == before.state)
              && (t.Some? <==> before.state != after.state && (before.state == Unknown ==> after.state == Down))
              && (t.Some? ==> t.value.from == before.state && t.value.to == after.state)
              && (t.Some? ==> t.value.monitor == r.monitorName && t.value.result == r)
    {
      var tr := if r.monitorName in track then track[r.monitorName] else FRESH;
      var from := tr.state;
      if r.RawState() == Up {
        tr := tr.(failStreak := 0, state := Up);
      } else if tr.state != Down {
        tr := tr.(failStreak := tr.failStreak + 1);
        if tr.failStreak >= FAIL_THRESHOLD {
          tr := tr.(state := Down);
        }
      }
      track := track[r.monitorName := tr];
      if tr.state == from {
        return None;
      }
      if from == Unknown && tr.state == Up {
        return None;
      }
      return Some(Transition(r.monitorName, from, tr.state, r));
    }

    method CurrentState(name: string) returns (s: State)
      ensures s == Lookup(track, name).state
      ensures s == if name in track then track[name].state else Unknown
    {
      if name in track {
        s := track[name].state;
      } else {
        s := Unknown;
      }
    }
  }

  // ---------- whole histories of one monitor ----------

  /** The tracker after a whole history of raw results, oldest first. */
  function Fold(ups: seq<bool>): Tracker {
    if ups == [] then FRESH else Step(Fold(ups[..|ups| - 1]), ups[|ups| - 1])
  }

  datatype Alert = Alert(from: State, to: State)

  /** The announcements a whole history makes, in order. */
  function Alerts(ups: seq<bool>): seq<Alert> {
    if ups == [] then []
    else
      var before := ups[..|ups| - 1];
      var from, to := Fold(before).state, Fold(ups).state;
      Alerts(before) + (if Loud(from, to) then [Alert(from, to)] else [])
  }

  /** How many failures end the history. */
  function TrailingFailures(ups: seq<bool>): nat {
    if ups == [] || ups[|ups| - 1] then 0 else 1 + TrailingFailures(ups[..|ups| - 1])
  }

  /** What the state must be, read off the last three results alone. */
  function Verdict(ups: seq<bool>): State {
    var recent := LastN(ups, FAIL_THRESHOLD);
    if true in recent then Up
    else if |recent| == FAIL_THRESHOLD then Down
    else Unknown
  }

  lemma {:induction false} FoldTracksFailures(ups: seq<bool>)
    ensures var t := Fold(ups);
            && t.failStreak == (if TrailingFailures(ups) < 3 then TrailingFailures(ups) else 3)
            && (t.state == Down <==> TrailingFailures(ups) >= 3)
            && (t.state == Unknown <==> TrailingFailures(ups) < 3 && TrailingFailures(ups) == |ups|)
  {
    if ups != [] {
      FoldTracksFailures(ups[..|ups| - 1]);
      assert TrailingFailures(ups[..|ups| - 1]) <= |ups| - 1 by {
        TrailingFailuresSpan(ups[..|ups| - 1]);
      }
    }
  }

  lemma {:induction false} TrailingFailuresSpan(ups: seq<bool>)
    ensures TrailingFailures(ups) <= |ups|
    ensures forall i :: |ups| - TrailingFailures(ups) <= i < |ups| ==> !ups[i]
    ensures TrailingFailures(ups) < |ups| ==> ups[|ups| - TrailingFailures(ups) - 1]
  {
    if ups != [] && !ups[|ups| - 1] {
      TrailingFailuresSpan(ups[..|ups| - 1]);
    }
  }

  /** Closed form: the debounced state depends on the last three results and nothing older. */
  lemma StateClosedForm(ups: seq<bool>)
    ensures Fold(ups).state == Verdict(ups)
  {
    FoldTracksFailures(ups);
    TrailingFailuresSpan(ups);
    var recent := LastN(ups, FAIL_THRESHOLD);
    var t := TrailingFailures(ups);
    if t >= 3 {
      assert true !in recent;
    } else if t < |ups| {
      assert recent[|recent| - t - 1];
    } else {
      assert recent == ups;
    }
  }

  /** The states a running machine can be in for one monitor. */
  predicate Reachable(t: Tracker) {
    match t.state
    case Down => t.failStreak == 3
    case _ => t.failStreak < 3
  }

  lemma FoldReachable(ups: seq<bool>)
    ensures Reachable(Fold(ups))
  {
    FoldTracksFailures(ups);
  }

  function Resume(t: Tracker, ups: seq<bool>): Tracker {
    if ups == [] then t else Step(Resume(t, ups[..|ups| - 1]), ups[|ups| - 1])
  }

  /** A restarted machine re-converges: any two machines agree for ever after three common
      results, and already after the first common success. */
  lemma {:induction false} Resynchronises(a: Tracker, b: Tracker, ups: seq<bool>)
    requires Reachable(a) && Reachable(b)
    requires |ups| >= FAIL_THRESHOLD || true in ups
    ensures Resume(a, ups) == Resume(b, ups)
  {
    var n := |ups| - 1;
    if !ups[n] {
      if true in ups[..n] || n >= FAIL_THRESHOLD {
        Resynchronises(a, b, ups[..n]);
      } else {
        assert !ups[0] && !ups[1] by {
          assert ups[..n][0] == ups[0] && ups[..n][1] == ups[1];
        }
        assert ups == [] + [false] + [false] + [false];
        ThreeFailures(a);
        ThreeFailures(b);
      }
    }
  }

  lemma {:induction false} FoldResumes(before: seq<bool>, ups: seq<bool>)
    ensures Fold(before + ups) == Resume(Fold(before), ups)
  {
    if ups == [] {
      assert before + ups == before;
    } else {
      FoldResumes(before, ups[..|ups| - 1]);
      assert (before + ups)[..|before + ups| - 1] == before + ups[..|ups| - 1];
    }
  }

  /** A restart costs at most three results, or one success: from then on the machine is where it
      would be had it never forgotten. */
  lemma RestartConverges(before: seq<bool>, ups: seq<bool>)
    requires |ups| >= FAIL_THRESHOLD || true in ups
    ensures Fold(ups) == Fold(before + ups)
  {
    FoldReachable(before);
    FoldReachable([]);
    Resynchronises(Fold(before), Fold([]), ups);
    FoldResumes(before, ups);
    FoldResumes([], ups);
    assert [] + ups == ups;
  }

  lemma ResumeAppend(t: Tracker, ups: seq<bool>, up: bool)
    ensures Resume(t, ups + [up]) == Step(Resume(t, ups), up)
  {
    assert (ups + [up])[..|ups|] == ups;
  }

  lemma ThreeFailures(t: Tracker)
    requires Reachable(t)
    ensures Resume(t, [] + [false] + [false] + [false]) == Tracker(Down, 3)
  {
    ResumeAppend(t, [], false);
    ResumeAppend(t, [] + [false], false);
    ResumeAppend(t, [] + [false] + [false], false);
  }

  // ---------- accounting of alerts ----------

  function Count(ups: seq<bool>, what: bool): nat {
    if ups == [] then 0 else Count(ups[..|ups| - 1], what) + (if ups[|ups| - 1] == what then 1 else 0)
  }

  function CountTo(alerts: seq<Alert>, to: State): nat {
    if alerts == [] then 0
    else CountTo(alerts[..|alerts| - 1], to) + (if alerts[|alerts| - 1].to == to then 1 else 0)
  }

  /** Raw up/down flips between neighbouring results. */
  function Flips(ups: seq<bool>): nat {
    if |ups| < 2 then 0
    else Flips(ups[..|ups| - 1]) + (if ups[|ups| - 1] != ups[|ups| - 2] then 1 else 0)
  }

  function Turn(i: nat): State {
    if i % 2 == 0 then Down else Up
  }

  /** Down and Up alternate, starting with Down, and each alert starts where the last one ended. */
  ghost predicate Alternates(alerts: seq<Alert>) {
    && (forall i :: 0 <= i < |alerts| ==> alerts[i].to == Turn(i))
    && (alerts != [] ==> alerts[0].from != Down)
    && (forall i, j :: 0 <= i < |alerts| && j == i + 1 < |alerts| ==> alerts[j].from == alerts[i].to)
  }

  lemma AlternatesExtend(alerts: seq<Alert>, a: Alert)
    requires Alternates(alerts)
    requires a.to == Turn(|alerts|)
    requires if alerts == [] then a.from != Down else a.from == alerts[|alerts| - 1].to
    ensures Alternates(alerts + [a])
  {
  }

  /** The last alert, and the state it left behind. */
  ghost predicate AlertsMatchState(ups: seq<bool>) {
    var a, t := Alerts(ups), Fold(ups);
    && Alternates(a)
    && (t.state == Down <==> |a| % 2 == 1)
    && (t.state == Unknown ==> a == [])
    && (a != [] ==> a[|a| - 1].to == t.state)
  }

  lemma {:induction false} AlertsFollowState(ups: seq<bool>)
    ensures AlertsMatchState(ups)
  {
    if ups != [] {
      var before := ups[..|ups| - 1];
      AlertsFollowState(before);
      var from, to := Fold(before).state, Fold(ups).state;
      if Loud(from, to) {
        AlternatesExtend(Alerts(before), Alert(from, to));
      }
    }
  }

  /** What the results so far have paid for, given the current tracker. */
  ghost predicate Paid(ups: seq<bool>) {
    var a, t := Alerts(ups), Fold(ups);
    && CountTo(a, Down) == CountTo(a, Up) + (if t.state == Down then 1 else 0)
    && 3 * CountTo(a, Down) + (if t.state == Down then 0 else t.failStreak) <= Count(ups, false)
    && CountTo(a, Up) <= Count(ups, true)
    && (t.state == Unknown ==> a == [])
    && Reachable(t)
  }

  /** Every alert but one comes with a flip of its own. */
  ghost predicate PaidInFlips(ups: seq<bool>) {
    var t := Fold(ups);
    && |Alerts(ups)| <= Flips(ups) + (if t.state == Up && t.failStreak > 0 then 0 else 1)
    && (t.state == Unknown ==> Alerts(ups) == [])
    && (t.state == Up ==> ups != [] && (ups[|ups| - 1] <==> t.failStreak == 0))
    && (t.state == Down ==> ups != [] && !ups[|ups| - 1])
  }

  lemma CountToExtend(alerts: seq<Alert>, a: Alert, to: State)
    ensures CountTo(alerts + [a], to) == CountTo(alerts, to) + (if a.to == to then 1 else 0)
  {
    assert (alerts + [a])[..|alerts|] == alerts;
  }

  lemma {:induction false} AlertAccounting(ups: seq<bool>)
    ensures Paid(ups)
  {
    if ups != [] {
      var before := ups[..|ups| - 1];
      AlertAccounting(before);
      var from, to := Fold(before).state, Fold(ups).state;
      if Loud(from, to) {
        CountToExtend(Alerts(before), Alert(from, to), Down);
        CountToExtend(Alerts(before), Alert(from, to), Up);
      } else {
        assert Alerts(ups) == Alerts(before);
      }
    }
  }

  lemma {:induction false} AlertsPaidInFlips(ups: seq<bool>)
    ensures PaidInFlips(ups)
  {
    if ups != [] {
      AlertsPaidInFlips(ups[..|ups| - 1]);
    }
  }

  /** Every pair of announced transitions is paid for by raw results. */
  lemma AlertBudget(ups: seq<bool>)
    ensures var a := Alerts(ups);
            && Alternates(a)
            && CountTo(a, Down) - CountTo(a, Up) == (if Verdict(ups) == Down then 1 else 0)
            && 3 * CountTo(a, Down) <= Count(ups, false)
            && CountTo(a, Up) <= Count(ups, true)
            && |a| <= Flips(ups) + 1
  {
    AlertsFollowState(ups);
    AlertAccounting(ups);
    AlertsPaidInFlips(ups);
    StateClosedForm(ups);
  }

  // ---------- many monitors in one machine ----------

  /** The machine's table after observing a whole stream of results of any monitors. */
  function ObserveAll(track: map<string, Tracker>, rs: seq<Result>): map<string, Tracker> {
    if rs == [] then track
    else
      var before := ObserveAll(track, rs[..|rs| - 1]);
      var r := rs[|rs| - 1];
      before[r.monitorName := Step(Lookup(before, r.monitorName), r.IsUp())]
  }

  function Named(name: string): Result -> bool {
    (r: Result) => r.monitorName == name
  }

  /** The raw ups and downs of a sequence of results. */
  function Ups(rs: seq<Result>): seq<bool> {
    Map((r: Result) => r.IsUp(), rs)
  }

  lemma UpsAppend(rs: seq<Result>, r: Result)
    ensures Ups(rs + [r]) == Ups(rs) + [r.IsUp()]
    ensures Ups(rs + [r])[..|rs|] == Ups(rs)
  {
  }

  lemma FoldAppend(ups: seq<bool>, up: bool)
    ensures Fold(ups + [up]) == Step(Fold(ups), up)
  {
    assert (ups + [up])[..|ups|] == ups;
  }

  /** Monitors do not influence each other: whatever else is observed in between, a monitor's
      state is the verdict on its own last three results. */
  lemma {:induction false} MonitorsAreIndependent(rs: seq<Result>, name: string)
    ensures var own := Ups(Filter(rs, Named(name)));
            && Lookup(ObserveAll(map[], rs), name) == Fold(own)
            && Lookup(ObserveAll(map[], rs), name).state == Verdict(own)
  {
    if rs != [] {
      var before, r := rs[..|rs| - 1], rs[|rs| - 1];
      MonitorsAreIndependent(before, name);
      if r.monitorName == name {
        var own := Filter(before, Named(name));
        UpsAppend(own, r);
        FoldAppend(Ups(own), r.IsUp());
      } else {
        assert Filter(rs, Named(name)) == Filter(before, Named(name));
      }
    } else {
      assert Ups([]) == [];
    }
    StateClosedForm(Ups(Filter(rs, Named(name))));
  }

  /** The state of a monitor in terms of what its own last three probes found: Down exactly after three
      results each of which has an error or a code outside 200 to 299, Up exactly when one of the
      last three is free of error with a code in that range. */
  lemma StateMeans(rs: seq<Result>, name: string)
    ensures var own, state := Filter(rs, Named(name)), Lookup(ObserveAll(map[], rs), name).state;
            && (state == Down <==> |own| >= 3 && forall i :: |own| - 3 <= i < |own| ==>
              own[i].err.Some? || own[i].statusCode <= 199 || own[i].statusCode >= 300)
            && (state == Up <==> (exists i ::
              0 <= i < |own| && i >= |own| - 3 && own[i].err.None? && 200 <= own[i].statusCode <= 299))
  {
    hide Filter, ObserveAll, Verdict, Fold;
    MonitorsAreIndependent(rs, name);
    VerdictMeans(Filter(rs, Named(name)));
  }

  lemma VerdictMeans(own: seq<Result>)
    ensures Verdict(Ups(own)) == Down <==>
      |own| >= 3 && forall i :: |own| - 3 <= i < |own| ==>
        own[i].err.Some? || own[i].statusCode <= 199 || own[i].statusCode >= 300
    ensures Verdict(Ups(own)) == Up <==> exists i ::
      0 <= i < |own| && i >= |own| - 3 && own[i].err.None? && 200 <= own[i].statusCode <= 299
  {
    var recent := LastN(Ups(own), FAIL_THRESHOLD);
    var d := |own| - |recent|;
    assert forall i :: 0 <= i < |recent| ==> recent[i] == own[d + i].IsUp();
    forall i | 0 <= i < |own| && i >= |own| - 3 ensures own[i].IsUp() == recent[i - d] {
    }
  }
}
