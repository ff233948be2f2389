/** Timed runs of the batch protocol exist for all offsets and probe times, and come up to the
    makespan bound. */
module TimedRuns {
  import opened Monitoring
  import opened Sequences
  import opened ProbeBatch
  import opened Makespan
  import opened TimedBatch

  /** What a batch is given: when it starts, its name hashes, and how long each probe takes. */
  datatype Plan = Plan(start: Time, interval: Duration, hashes: seq<int>, takes: seq<Duration>) {
    ghost predicate Valid() {
      && |hashes| == |takes| && -TWO63 <= interval < TWO63
      && (forall i :: 0 <= i < |hashes| ==> 0 <= hashes[i] < TWO64 && takes[i] >= 0)
    }
  }

  /** Every probe takes exactly as long as planned. */
  ghost predicate AsPlanned(r: Timed, p: Plan) {
    && |r.at| == |r.ls| && |p.takes| == r.jobs
    && (forall i, j, k ::
      0 <= i < r.jobs && 0 <= j <= k < |r.ls| && PassedAt(r, Begin, i, j) && PassedAt(r, End, i, k) ==>
        r.at[k] == r.at[j] + p.takes[i])
  }

  // ---------- one action after the other ----------

  function Extended(r: Timed, l: Label, t: Time): Timed {
    Timed(r.workers, r.jobs, r.ls + [l], r.at + [t])
  }

  function Last(r: Timed): Batch {
    r.StateAt(|r.ls|)
  }

  lemma Extends(r: Timed, l: Label, t: Time)
    requires Unfolds(r) && Enabled(Last(r), l) && l != Cancel
    ensures var e := Extended(r, l, t);
            && Unfolds(e) && Last(e) == Next(Last(r), l)
            && forall k :: 0 <= k <= |r.ls| ==> e.StateAt(k) == r.StateAt(k)
  {
    hide Enabled, Next;
    var e := Extended(r, l, t);
    assert r.ls[..|r.ls|] == r.ls && e.ls[..|r.ls|] == r.ls && e.ls[..|e.ls|] == e.ls;
    OnlyCancelCancels(Last(r), l);
    forall k | 0 <= k <= |r.ls| ensures e.StateAt(k) == r.StateAt(k) {
      assert e.ls[..k] == r.ls[..k];
    }
  }

  predicate Waiting(s: Batch, i: nat) {
    i < |s.dispatchers| && s.dispatchers[i].Delayed?
  }

  predicate UnderWay(s: Batch, i: nat) {
    i < |s.progress| && (s.progress[i].Probing? || s.progress[i].Running?)
  }

  /** No timer and no probe is overdue at time `now`; `begun` remembers the hand-overs. */
  ghost predicate OnTime(s: Batch, p: Plan, begun: seq<Time>, now: Time)
    requires p.Valid()
  {
    && |s.progress| == |s.dispatchers| == |p.hashes| == |begun|
    && (s.main.Starting? && s.main.started < |s.workers| + |s.dispatchers| ==> now == p.start)
    && (forall i :: 0 <= i < |begun| && Waiting(s, i) ==> now <= p.start + Offset(p.hashes[i], p.interval))
    && (forall i :: 0 <= i < |begun| && UnderWay(s, i) ==> now <= begun[i] + p.takes[i])
  }

  /** What the run so far has recorded is as planned. */
  ghost predicate Recorded(r: Timed, p: Plan, begun: seq<Time>)
    requires p.Valid() && |r.at| == |r.ls| && |begun| == |p.takes| == r.jobs
  {
    && (forall i, k :: 0 <= i < r.jobs && 0 <= k < |r.ls| && PassedAt(r, Begin, i, k) ==> r.at[k] == begun[i])
    && (forall i, k :: 0 <= i < r.jobs && 0 <= k < |r.ls| && PassedAt(r, End, i, k) ==>
      r.at[k] == begun[i] + p.takes[i])
  }

  function Now(r: Timed, p: Plan): Time
    requires |r.at| == |r.ls|
  {
    Before(r, p.start, |r.at|)
  }

  ghost predicate Simulates(r: Timed, p: Plan, begun: seq<Time>)
    requires p.Valid()
  {
    && Unfolds(r) && r.workers > 0 && |begun| == |p.hashes| == r.jobs
    && Clocked(r, p.start) && TimersExact(r, p.start, p.interval, p.hashes)
    && Recorded(r, p, begun) && OnTime(Last(r), p, begun, Now(r, p))
  }

  function Begun(begun: seq<Time>, l: Label, t: Time): seq<Time> {
    if l.Rendezvous? && l.i < |begun| then begun[l.i := t] else begun
  }

  /** How a job begins and ends. */
  lemma HowPassed(s: Batch, l: Label, i: nat)
    requires Inv(s) && Enabled(s, l) && i < |s.progress|
    ensures Reached(Begin, Next(s, l), i) && !Reached(Begin, s, i) ==> l.Rendezvous? && l.i == i
    ensures l.Rendezvous? && l.i == i ==> !Reached(Begin, s, i) && !Reached(End, s, i)
    ensures Reached(End, Next(s, l), i) && !Reached(End, s, i) ==> l.StageDone? && s.workers[l.w].job == i
  {
    hide PhaseInv;
  }

  lemma ClockGoesOn(r: Timed, p: Plan, l: Label, t: Time)
    requires p.Valid() && Unfolds(r) && Clocked(r, p.start) && Enabled(Last(r), l) && l != Cancel
    requires t >= Now(r, p) && (t > Now(r, p) ==> NothingUrgent(Last(r)))
    ensures Clocked(Extended(r, l, t), p.start)
  {
    hide NothingUrgent, Enabled, Next, Unfolds;
    var e := Extended(r, l, t);
    Extends(r, l, t);
    forall k | 0 <= k < |e.at| && Before(e, p.start, k) < e.at[k] ensures NothingUrgent(e.StateAt(k)) {
      if k < |r.at| {
        assert Before(e, p.start, k) == Before(r, p.start, k);
      }
    }
  }

  lemma TimersGoOn(r: Timed, p: Plan, l: Label, t: Time)
    requires p.Valid() && TimersExact(r, p.start, p.interval, p.hashes)
    requires l.TimerFires? && l.i < |p.hashes| ==> t == p.start + Offset(p.hashes[l.i], p.interval)
    ensures TimersExact(Extended(r, l, t), p.start, p.interval, p.hashes)
  {
    hide Offset;
  }

  lemma RecordGoesOn(r: Timed, p: Plan, begun: seq<Time>, l: Label, t: Time)
    requires p.Valid() && Unfolds(r) && Enabled(Last(r), l) && l != Cancel
    requires |r.at| == |r.ls| && |begun| == |p.takes| == r.jobs && Recorded(r, p, begun)
    requires l.StageDone? ==> var j := Last(r).workers[l.w].job; j < r.jobs && t == begun[j] + p.takes[j]
    ensures Recorded(Extended(r, l, t), p, Begun(begun, l, t))
  {
    hide Unfolds, Inv, Enabled, Next, Reached;
    var e, n, after := Extended(r, l, t), |r.ls|, Begun(begun, l, t);
    Extends(r, l, t);
    StateSound(r, n);
    forall i, k | 0 <= i < r.jobs && 0 <= k < |e.ls| && PassedAt(e, Begin, i, k) ensures e.at[k] == after[i] {
      HowPassed(Last(r), l, i);
      if k < n {
        ReachedBy(r, Begin, i, k + 1, n);
      }
    }
    forall i, k | 0 <= i < r.jobs && 0 <= k < |e.ls| && PassedAt(e, End, i, k)
      ensures e.at[k] == after[i] + p.takes[i]
    {
      HowPassed(Last(r), l, i);
      if k < n {
        ReachedBy(r, End, i, k + 1, n);
      }
    }
  }

  lemma GoesOn(r: Timed, p: Plan, begun: seq<Time>, l: Label, t: Time)
    requires p.Valid() && Simulates(r, p, begun) && Enabled(Last(r), l) && l != Cancel
    requires t >= Now(r, p) && (t > Now(r, p) ==> NothingUrgent(Last(r)))
    requires l.TimerFires? && l.i < |p.hashes| ==> t == p.start + Offset(p.hashes[l.i], p.interval)
    requires l.StageDone? ==> var j := Last(r).workers[l.w].job; j < r.jobs && t == begun[j] + p.takes[j]
    requires OnTime(Next(Last(r), l), p, Begun(begun, l, t), t)
    ensures Simulates(Extended(r, l, t), p, Begun(begun, l, t))
  {
    hide Clocked, TimersExact, Recorded, OnTime, Unfolds, Enabled, Next, NothingUrgent, Offset;
    assert |r.at| == |r.ls| by {
      SameLength(r, p.start);
    }
    ClockGoesOn(r, p, l, t);
    TimersGoOn(r, p, l, t);
    RecordGoesOn(r, p, begun, l, t);
    Extends(r, l, t);
  }

  lemma SameLength(r: Timed, start: Time)
    requires Clocked(r, start)
    ensures |r.at| == |r.ls|
  {
  }

  // ---------- what to do next ----------

  /** Whatever is urgent is done at once, and makes nothing overdue. */
  lemma UrgentOnTime(s: Batch, p: Plan, begun: seq<Time>, now: Time, l: Label)
    requires p.Valid() && Inv(s) && !s.cancelled && OnTime(s, p, begun, now) && now >= p.start
    requires Enabled(s, l) && !TakesTime(l)
    ensures OnTime(Next(s, l), p, Begun(begun, l, now), now)
  {
    hide PhaseInv, JobInv;
    forall i | 0 <= i < |begun| ensures p.start <= p.start + Offset(p.hashes[i], p.interval) {
      OffsetInInterval(p.hashes[i], p.interval);
    }
    hide Offset;
  }

  predicate Pending(s: Batch, i: nat) {
    Waiting(s, i) || UnderWay(s, i)
  }

  function Due(s: Batch, p: Plan, begun: seq<Time>, i: nat): Time
    requires i < |p.hashes| && i < |p.takes| && i < |begun| && p.Valid()
  {
    if Waiting(s, i) then p.start + Offset(p.hashes[i], p.interval) else begun[i] + p.takes[i]
  }

  /** The timer or probe that is due first. */
  lemma FirstDue(s: Batch, p: Plan, begun: seq<Time>, some: nat) returns (i: nat)
    requires p.Valid() && |begun| == |p.hashes| && some < |begun| && Pending(s, some)
    ensures i < |begun| && Pending(s, i)
    ensures forall j :: 0 <= j < |begun| && Pending(s, j) ==> Due(s, p, begun, i) <= Due(s, p, begun, j)
  {
    hide Pending, Due;
    i := some;
    var k := 0;
    while k < |begun|
      invariant k <= |begun| && i < |begun| && Pending(s, i)
      invariant forall j :: 0 <= j < k && Pending(s, j) ==> Due(s, p, begun, i) <= Due(s, p, begun, j)
    {
      if Pending(s, k) && Due(s, p, begun, k) < Due(s, p, begun, i) {
        i := k;
      }
      k := k + 1;
    }
  }

  /** A job whose timer has still to fire or whose probe has still to end, when nothing is urgent. */
  lemma SomePending(s: Batch) returns (i: nat)
    requires Inv(s) && NothingUrgent(s) && !s.main.Returned? && |s.workers| > 0
    ensures i < |s.progress| && Pending(s, i)
  {
    i := SomethingPending(s, Result("", 0, 0, None, 0, 0, 0, 0, 0, 0));
    assert !Enabled(s, Start);
    hide Sum, NothingUrgent;
  }

  function LabelFor(s: Batch, i: nat): Label
    requires Pending(s, i)
  {
    if Waiting(s, i) then TimerFires(i)
    else if s.progress[i].Probing? then
      ProbeReturns(s.progress[i].worker, Result("", 200, 0, None, 0, 0, 0, 0, 0, 0))
    else StageDone(s.progress[i].worker)
  }

  lemma NeverBoth(s: Batch, i: nat)
    requires Inv(s)
    ensures !(Waiting(s, i) && UnderWay(s, i))
  {
    hide PhaseInv;
  }

  /** The label that is due is enabled, and leaves all other jobs as far as they are. */
  lemma LabelEnabled(s: Batch, i: nat)
    requires Inv(s) && NothingUrgent(s) && Pending(s, i)
    ensures var l := LabelFor(s, i);
            && Enabled(s, l) && l != Cancel
            && (l.TimerFires? <==> Waiting(s, i)) && (l.TimerFires? ==> l.i == i)
            && (l.StageDone? ==> s.workers[l.w].job == i)
    ensures var t := Next(s, LabelFor(s, i));
            && |t.progress| == |s.progress| && |t.dispatchers| == |s.dispatchers| && |t.workers| == |s.workers|
            && t.main == s.main && !(s.main.Starting? && s.main.started < |s.workers| + |s.dispatchers|)
            && (forall j :: Waiting(t, j) ==> Waiting(s, j))
            && (forall j :: UnderWay(t, j) ==> UnderWay(s, j))
  {
    hide Sum, ClosedBetween, InOrder;
    assert !Enabled(s, Start);
    var t := Next(s, LabelFor(s, i));
    if !Waiting(s, i) {
      var w := s.progress[i].worker;
      assert s.workers[w] == Worker.Busy(i);
      assert t.dispatchers == s.dispatchers;
      assert forall j :: 0 <= j < |s.progress| && j != i ==> t.progress[j] == s.progress[j];
    }
  }

  lemma DueOnTime(s: Batch, p: Plan, begun: seq<Time>, now: Time, i: nat)
    requires p.Valid() && Inv(s) && NothingUrgent(s) && OnTime(s, p, begun, now)
    requires i < |begun| && Pending(s, i)
    requires forall j :: 0 <= j < |begun| && Pending(s, j) ==> Due(s, p, begun, i) <= Due(s, p, begun, j)
    ensures var l, t := LabelFor(s, i), Due(s, p, begun, i);
            && Enabled(s, l) && l != Cancel && t >= now
            && (l.TimerFires? ==> l.i == i && t == p.start + Offset(p.hashes[i], p.interval))
            && (l.StageDone? ==> s.workers[l.w].job == i && t == begun[i] + p.takes[i])
            && OnTime(Next(s, l), p, begun, t)
  {
    hide Inv, Next, Enabled, Offset, LabelFor, NothingUrgent;
    LabelEnabled(s, i);
    NeverBoth(s, i);
    var t, after := Due(s, p, begun, i), Next(s, LabelFor(s, i));
    forall j | 0 <= j < |begun| && Waiting(after, j) ensures t <= p.start + Offset(p.hashes[j], p.interval) {
      assert Pending(s, j);
    }
    forall j | 0 <= j < |begun| && UnderWay(after, j) ensures t <= begun[j] + p.takes[j] {
      NeverBoth(s, j);
      assert Pending(s, j);
    }
  }

  // ---------- whole runs ----------

  /** For every pool, all name hashes, every interval and all probe times there is a timed run: the
      batch returns, the clock stands still while anything urgent can happen, timers fire at their
      offsets and every probe takes exactly its time. */
  lemma RunExists(workers: nat, p: Plan) returns (r: Timed)
    requires p.Valid() && workers > 0
    ensures r.workers == workers && r.jobs == |p.hashes|
    ensures Completes(r) && Clocked(r, p.start) && TimersExact(r, p.start, p.interval, p.hashes) && AsPlanned(r, p)
  {
    hide Unfolds, Clocked, TimersExact, Recorded, OnTime, NothingUrgent, Inv, Enabled, Next, Offset, Work;
    r := Timed(workers, |p.hashes|, [], []);
    var begun := seq(|p.hashes|, _ => p.start);
    AtFirst(r, p, begun);
    StateSound(r, 0);
    while !Last(r).main.Returned?
      invariant r.workers == workers && r.jobs == |p.hashes| && Simulates(r, p, begun) && Inv(Last(r))
      decreases if Last(r).main.Returned? then 0 else Work(Last(r)) + 1
    {
      SameLength(r, p.start);
      StateSound(r, |r.ls|);
      var l, t := NextAction(r, p, begun);
      GoesOn(r, p, begun, l, t);
      StepShrinksWork(Last(r), l);
      Extends(r, l, t);
      InvKept(Last(r), l);
      begun := Begun(begun, l, t);
      r := Extended(r, l, t);
    }
    SameLength(r, p.start);
    RecordedIsPlanned(r, p, begun);
  }

  lemma AtFirst(r: Timed, p: Plan, begun: seq<Time>)
    requires p.Valid() && r.workers > 0 && r.ls == [] && r.at == [] && r.jobs == |p.hashes| == |begun|
    ensures Simulates(r, p, begun)
  {
    assert r.ls[..0] == [];
  }

  lemma RecordedIsPlanned(r: Timed, p: Plan, begun: seq<Time>)
    requires p.Valid() && |r.at| == |r.ls| && |begun| == |p.takes| == r.jobs && Recorded(r, p, begun)
    ensures AsPlanned(r, p)
  {
    hide PassedAt;
  }

  lemma NextAction(r: Timed, p: Plan, begun: seq<Time>) returns (l: Label, t: Time)
    requires p.Valid() && Simulates(r, p, begun) && !Last(r).main.Returned? && |r.at| == |r.ls|
    ensures Enabled(Last(r), l) && l != Cancel
    ensures t >= Now(r, p) && (t > Now(r, p) ==> NothingUrgent(Last(r)))
    ensures l.TimerFires? && l.i < |p.hashes| ==> t == p.start + Offset(p.hashes[l.i], p.interval)
    ensures l.StageDone? ==> var j := Last(r).workers[l.w].job; j < r.jobs && t == begun[j] + p.takes[j]
    ensures OnTime(Next(Last(r), l), p, Begun(begun, l, t), t)
  {
    hide Unfolds, TimersExact, Recorded, Inv, Enabled, Next, Offset, OnTime;
    var s := Last(r);
    StateSound(r, |r.ls|);
    if NothingUrgent(s) {
      hide NothingUrgent;
      var some := SomePending(s);
      var i := FirstDue(s, p, begun, some);
      DueOnTime(s, p, begun, Now(r, p), i);
      l, t := LabelFor(s, i), Due(s, p, begun, i);
    } else {
      l :| Enabled(s, l) && !TakesTime(l);
      t := Now(r, p);
      UrgentOnTime(s, p, begun, t, l);
    }
  }

  // ---------- the bound is attained ----------

  /** Two jobs on one worker do not overlap. */
  lemma OneAfterTheOther(r: Timed, i: nat, j: nat)
    requires Completes(r) && i < r.jobs && j < r.jobs && i != j && On(r, i) == On(r, j)
    requires At(r, Begin, i) <= At(r, Begin, j)
    ensures At(r, End, i) < At(r, Begin, j)
  {
    hide Unfolds, Inv, At, On, Enabled, Next, Reached;
    var k := At(r, Begin, j);
    MomentOrder(r, i);
    MomentOrder(r, j);
    MomentSplits(r, Begin, j, k);
    MomentSplits(r, Begin, i, k);
    MomentSplits(r, End, i, 0);
    StateSound(r, k);
    StateSound(r, k + 1);
    StateStep(r, k);
    HowPassed(r.StateAt(k), r.ls[k], j);
    if At(r, End, i) >= k {
      BeginsApart(r, i, j);
      OnUntilEnd(r, i, k);
      OnFromBegin(r, j);
      TakenWorker(r.StateAt(k), r.ls[k], i, On(r, i));
    }
  }

  lemma BeginsApart(r: Timed, i: nat, j: nat)
    requires Completes(r) && i < r.jobs && j < r.jobs && i != j
    ensures At(r, Begin, i) != At(r, Begin, j)
  {
    hide Unfolds, Inv, At, Enabled, Next, Reached;
    var k := At(r, Begin, j);
    MomentSplits(r, Begin, j, 0);
    MomentSplits(r, Begin, i, 0);
    StateSound(r, k);
    StateStep(r, k);
    HowPassed(r.StateAt(k), r.ls[k], j);
    HowPassed(r.StateAt(k), r.ls[k], i);
  }

  /** A busy worker is handed no second job. */
  lemma TakenWorker(s: Batch, l: Label, i: nat, w: nat)
    requires Inv(s) && Enabled(s, l) && l.Rendezvous?
    requires i < |s.progress| && i != l.i && OnWorker(s.progress[i], w)
    ensures l.i < |Next(s, l).progress| && !OnWorker(Next(s, l).progress[l.i], w)
  {
    hide PhaseInv;
  }

  /** The stretch of length `takes` after `from` in which a job begins. */
  ghost function Slot(r: Timed, i: nat, from: Time, takes: Duration): int
    requires takes > 0
  {
    (TimeOf(r, Begin, i) - from) / takes
  }

  lemma SlotsApart(r: Timed, start: Time, i: nat, j: nat, from: Time, takes: Duration)
    requires Completes(r) && Clocked(r, start) && takes > 0
    requires i < r.jobs && j < r.jobs && i != j && On(r, i) == On(r, j) && At(r, Begin, i) <= At(r, Begin, j)
    requires TimeOf(r, End, i) >= TimeOf(r, Begin, i) + takes
    ensures Slot(r, i, from, takes) < Slot(r, j, from, takes)
  {
    hide Unfolds, At, On, NothingUrgent;
    OneAfterTheOther(r, i, j);
    MomentOrder(r, j);
    MomentOrder(r, i);
    LaterSlot(TimeOf(r, Begin, i) - from, TimeOf(r, Begin, j) - from, takes);
  }

  lemma LaterSlot(a: int, b: int, d: int)
    requires d > 0 && b >= a + d
    ensures a / d < b / d
  {
    assert a == (a / d) * d + a % d && b == (b / d) * d + b % d;
    if b / d <= a / d {
      Multiples(b / d, a / d, d);
    }
  }

  lemma SlotWithin(x: int, d: int, n: nat)
    requires d > 0 && 0 <= x < n * d
    ensures 0 <= x / d < n
  {
    assert x == (x / d) * d + x % d;
    if x / d >= n {
      Multiples(n, x / d, d);
    }
  }

  /** Worker and slot in one number. */
  function Code(w: int, slot: int, slots: nat): int {
    w * slots + slot
  }

  lemma CodesApart(v: nat, a: nat, w: nat, b: nat, slots: nat)
    requires a < slots && b < slots && (v != w || a != b)
    ensures Code(v, a, slots) != Code(w, b, slots)
  {
    if v < w {
      Multiples(v + 1, w, slots);
      assert (v + 1) * slots == v * slots + slots;
    } else if w < v {
      Multiples(w + 1, v, slots);
      assert (w + 1) * slots == w * slots + slots;
    }
  }

  lemma CodeBelow(w: nat, a: nat, workers: nat, slots: nat)
    requires a < slots && w < workers
    ensures 0 <= Code(w, a, slots) < workers * slots
  {
    Multiples(w + 1, workers, slots);
    Multiples(0, w, slots);
    assert (w + 1) * slots == w * slots + slots;
  }

  lemma DistinctBelow(f: seq<nat>, n: nat)
    requires forall a :: 0 <= a < |f| ==> f[a] < n
    requires forall a, b :: 0 <= a < b < |f| ==> f[a] != f[b]
    ensures |f| <= n
  {
    UsedSize(f);
    BelowSize(n);
    SubsetSize(Used(f), Below(n));
  }

  /** If jobs released no earlier than `from` all take `takes` and end before `slots + 1` such
      stretches have passed, there are at most `workers * slots` of them. */
  lemma FewJobs(r: Timed, start: Time, from: Time, takes: Duration, slots: nat)
    requires Completes(r) && Clocked(r, start) && takes > 0
    requires forall i :: 0 <= i < r.jobs ==>
      from <= TimeOf(r, Begin, i) && TimeOf(r, Begin, i) + takes <= TimeOf(r, End, i) < from + (slots + 1) * takes
    ensures r.jobs <= r.workers * slots
  {
    hide Unfolds, Clocked, At, On, Code, TimeOf;
    assert (slots + 1) * takes == slots * takes + takes;
    forall i | 0 <= i < r.jobs ensures 0 <= Slot(r, i, from, takes) < slots && On(r, i) < r.workers {
      SlotWithin(TimeOf(r, Begin, i) - from, takes, slots);
      BegunOn(r, i);
    }
    hide Slot;
    forall i | 0 <= i < r.jobs ensures 0 <= Code(On(r, i), Slot(r, i, from, takes), slots) < r.workers * slots {
      CodeBelow(On(r, i), Slot(r, i, from, takes), r.workers, slots);
    }
    var f: seq<nat> := seq(r.jobs, i requires 0 <= i < r.jobs => Code(On(r, i), Slot(r, i, from, takes), slots));
    forall i, j | 0 <= i < j < r.jobs ensures f[i] != f[j] {
      if On(r, i) == On(r, j) {
        if At(r, Begin, i) <= At(r, Begin, j) {
          SlotsApart(r, start, i, j, from, takes);
        } else {
          SlotsApart(r, start, j, i, from, takes);
        }
      }
      CodesApart(On(r, i), Slot(r, i, from, takes), On(r, j), Slot(r, j, from, takes), slots);
    }
    DistinctBelow(f, r.workers * slots);
  }

  /** Any timed run whose jobs are released no earlier than `from` and take at least `takes` goes on
      for ceil(n / workers) times `takes` after `from`. */
  lemma LastsAtLeast(r: Timed, start: Time, from: Time, takes: Duration) returns (i: nat)
    requires Completes(r) && Clocked(r, start) && takes > 0 && r.jobs > 0 && r.workers > 0
    requires forall i :: 0 <= i < r.jobs ==>
      from <= TimeOf(r, Begin, i) && TimeOf(r, Begin, i) + takes <= TimeOf(r, End, i)
    ensures i < r.jobs && TimeOf(r, End, i) >= from + CeilDiv(r.jobs, r.workers) * takes
  {
    hide Unfolds, Clocked, TimeOf;
    var c := CeilDiv(r.jobs, r.workers);
    CeilBounds(r.jobs, r.workers);
    if forall j :: 0 <= j < r.jobs ==> TimeOf(r, End, j) < from + c * takes {
      FewJobs(r, start, from, takes, c - 1);
      assert false;
    }
    i :| 0 <= i < r.jobs && TimeOf(r, End, i) >= from + c * takes;
  }

  /** The makespan bound is sharp, for every pool, every list and every timeout: some run within all
      its hypotheses, in which dispatchers wait as long as they can, ends within a nanosecond of it. */
  lemma BoundIsSharp(workers: nat, jobs: nat, start: Time, interval: Duration, timeout: Duration)
    returns (r: Timed, hashes: seq<int>, k: nat)
    requires workers > 0 && jobs > 0 && timeout > 0 && 0 < interval < TWO63
    ensures r.workers == workers && r.jobs == jobs
    ensures Completes(r) && Clocked(r, start) && TimersExact(r, start, interval, hashes) && ProbesInTime(r, timeout)
    ensures k < |r.at| && r.at[k] >= Deadline(r, start, interval, timeout) - 1
  {
    hide Unfolds, Clocked, Offset, At, CeilDiv, PassedAt;
    hashes := seq(jobs, _ => interval - 1);
    var p := Plan(start, interval, hashes, seq(jobs, _ => timeout));
    r := RunExists(workers, p);
    SameLength(r, start);
    LatestOffset(interval);
    forall i | 0 <= i < jobs
      ensures start + interval - 1 <= TimeOf(r, Begin, i) && TimeOf(r, Begin, i) + timeout == TimeOf(r, End, i)
    {
      JobTimes(r, start, interval, timeout, hashes, i);
      MomentOrder(r, i);
      MomentSplits(r, Begin, i, 0);
      MomentSplits(r, End, i, 0);
    }
    var i := LastsAtLeast(r, start, start + interval - 1, timeout);
    MomentOrder(r, i);
    k := At(r, End, i);
  }

  lemma LatestOffset(interval: Duration)
    requires 0 < interval < TWO63
    ensures Offset(interval - 1, interval) == interval - 1
  {
  }
}
