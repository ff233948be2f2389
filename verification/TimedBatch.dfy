/** Timed runs of the batch protocol: where the schedules of the makespan bound come from. */
module TimedBatch {
  import opened Monitoring
  import opened Sequences
  import opened ProbeBatch
  import opened Makespan

  /** A run of one batch with the time of every action. */
  datatype Timed = Timed(workers: nat, jobs: nat, ls: seq<Label>, at: seq<Time>) {
    function StateAt(k: nat): Batch {
      if k <= |ls| && Run(Initial(workers, jobs, false), ls[..k]).Some?
      then Run(Initial(workers, jobs, false), ls[..k]).value else Initial(workers, jobs, false)
    }
  }

  /** Timers and probes take time; starting, handing over and winding up do not. */
  predicate TakesTime(l: Label) {
    l.TimerFires? || l.ProbeReturns? || l.StageDone? || l.Cancel?
  }

  ghost predicate NothingUrgent(s: Batch) {
    forall l :: Enabled(s, l) ==> TakesTime(l)
  }

  datatype Milestone = Release | Begin | End

  /** How far job `i` is: its timer has fired, a worker has it, it is over. */
  predicate Reached(m: Milestone, s: Batch, i: nat) {
    i < |s.progress| && i < |s.dispatchers|
    && match m
       case Release => !s.dispatchers[i].Unborn? && !s.dispatchers[i].Delayed?
       case Begin => !s.progress[i].NotStarted?
       case End => s.progress[i].Finished?
  }

  /** The batch has come this far without being cancelled. */
  ghost predicate Unfolds(r: Timed) {
    Run(Initial(r.workers, r.jobs, false), r.ls).Some? && !r.StateAt(|r.ls|).cancelled
  }

  /** And it returns. */
  ghost predicate Completes(r: Timed) {
    Unfolds(r) && r.StateAt(|r.ls|).main.Returned?
  }

  /** The clock runs forward from `start`, and stands still while anything urgent can happen. */
  ghost predicate Clocked(r: Timed, start: Time) {
    && |r.at| == |r.ls|
    && (forall k :: 0 <= k < |r.at| ==> start <= r.at[k])
    && (forall j, k :: 0 <= j <= k < |r.at| ==> r.at[j] <= r.at[k])
    && (forall k :: 0 <= k < |r.at| && Before(r, start, k) < r.at[k] ==> NothingUrgent(r.StateAt(k)))
  }

  function Before(r: Timed, start: Time, k: nat): Time
    requires k <= |r.at|
  {
    if k == 0 then start else r.at[k - 1]
  }

  ghost predicate TimersExact(r: Timed, start: Time, interval: Duration, hashes: seq<int>) {
    && |r.at| == |r.ls| && |hashes| == r.jobs && -TWO63 <= interval < TWO63
    && (forall i :: 0 <= i < |hashes| ==> 0 <= hashes[i] < TWO64)
    && (forall k :: 0 <= k < |r.ls| && r.ls[k].TimerFires? && r.ls[k].i < |hashes| ==>
      r.at[k] == start + Offset(hashes[r.ls[k].i], interval))
  }

  /** Every probe is over within the timeout after it was handed to its worker. */
  ghost predicate ProbesInTime(r: Timed, timeout: Duration) {
    && |r.at| == |r.ls|
    && (forall i, j, k ::
      0 <= i < r.jobs && 0 <= j <= k < |r.ls| && PassedAt(r, Begin, i, j) && PassedAt(r, End, i, k) ==>
        r.at[k] <= r.at[j] + timeout)
  }

  /** Action `k` is the one by which job `i` reaches the milestone. */
  predicate PassedAt(r: Timed, m: Milestone, i: nat, k: nat) {
    !Reached(m, r.StateAt(k), i) && Reached(m, r.StateAt(k + 1), i)
  }

  // ---------- the run, state by state ----------

  lemma {:induction false} PrefixRuns(r: Timed, n: nat, k: nat)
    requires k <= n <= |r.ls| && Run(Initial(r.workers, r.jobs, false), r.ls[..n]).Some?
    ensures Run(Initial(r.workers, r.jobs, false), r.ls[..k]).Some?
    ensures !Run(Initial(r.workers, r.jobs, false), r.ls[..n]).value.cancelled ==>
      !Run(Initial(r.workers, r.jobs, false), r.ls[..k]).value.cancelled
  {
    if k < n {
      assert r.ls[..n][..n - 1] == r.ls[..n - 1];
      PrefixRuns(r, n - 1, k);
    }
  }

  lemma StateSound(r: Timed, k: nat)
    requires Unfolds(r) && k <= |r.ls|
    ensures Inv(r.StateAt(k)) && !r.StateAt(k).cancelled && Run(Initial(r.workers, r.jobs, false), r.ls[..k]).Some?
    ensures |r.StateAt(k).workers| == r.workers
    ensures |r.StateAt(k).progress| == r.jobs && |r.StateAt(k).dispatchers| == r.jobs
  {
    hide Inv, Run;
    assert r.ls[..|r.ls|] == r.ls;
    PrefixRuns(r, |r.ls|, k);
    RunTallies(r.workers, r.jobs, false, r.ls[..k]);
    BatchSafety(r.workers, r.jobs, false, r.ls[..k]);
  }

  lemma StateStep(r: Timed, k: nat)
    requires Unfolds(r) && k < |r.ls|
    ensures Enabled(r.StateAt(k), r.ls[k]) && r.StateAt(k + 1) == Next(r.StateAt(k), r.ls[k])
    ensures !r.ls[k].Cancel?
  {
    hide Enabled, Next;
    StateSound(r, k);
    StateSound(r, k + 1);
    assert r.ls[..k + 1][..k] == r.ls[..k];
    assert Enabled(r.StateAt(k), r.ls[k]) && r.StateAt(k + 1) == Next(r.StateAt(k), r.ls[k]);
    CancelShows(r.StateAt(k), r.ls[k]);
  }

  lemma CancelShows(s: Batch, l: Label)
    requires Enabled(s, l)
    ensures l.Cancel? ==> Next(s, l).cancelled
  {
  }

  /** Milestones, once reached, stay reached. */
  lemma StaysReached(s: Batch, l: Label, m: Milestone, i: nat)
    requires Inv(s) && Enabled(s, l) && Reached(m, s, i)
    ensures Reached(m, Next(s, l), i)
  {
    hide Sum, ClosedBetween;
  }

  lemma {:induction false} ReachedBy(r: Timed, m: Milestone, i: nat, j: nat, k: nat)
    requires Unfolds(r) && j <= k <= |r.ls| && Reached(m, r.StateAt(j), i)
    ensures Reached(m, r.StateAt(k), i)
  {
    hide Unfolds, Reached, Inv, Enabled, Next;
    if j < k {
      ReachedBy(r, m, i, j, k - 1);
      StateSound(r, k - 1);
      StateStep(r, k - 1);
      StaysReached(r.StateAt(k - 1), r.ls[k - 1], m, i);
    }
  }

  /** A job's milestones come in their order. */
  lemma InMilestoneOrder(s: Batch, i: nat)
    requires Inv(s)
    ensures Reached(End, s, i) ==> Reached(Begin, s, i)
    ensures Reached(Begin, s, i) ==> Reached(Release, s, i)
  {
    hide PhaseInv;
  }

  lemma NothingReached(workers: nat, jobs: nat, m: Milestone, i: nat)
    ensures !Reached(m, Initial(workers, jobs, false), i)
  {
  }

  /** The action by which job `i` reaches a milestone it has reached by `n`. */
  ghost function Moment(r: Timed, m: Milestone, i: nat, n: nat): nat {
    if n == 0 then 0
    else if Reached(m, r.StateAt(n - 1), i) then Moment(r, m, i, n - 1)
    else n - 1
  }

  lemma {:induction false} MomentPasses(r: Timed, m: Milestone, i: nat, n: nat)
    requires Unfolds(r) && n <= |r.ls| && Reached(m, r.StateAt(n), i)
    ensures Moment(r, m, i, n) < n && PassedAt(r, m, i, Moment(r, m, i, n))
  {
    hide Unfolds, Reached;
    if n == 0 {
      assert r.StateAt(0) == Initial(r.workers, r.jobs, false);
      NothingReached(r.workers, r.jobs, m, i);
    } else if Reached(m, r.StateAt(n - 1), i) {
      MomentPasses(r, m, i, n - 1);
    }
  }

  /** Before its moment a milestone is not reached, from then on it is. */
  lemma MomentSplits(r: Timed, m: Milestone, i: nat, k: nat)
    requires Completes(r) && i < r.jobs && k <= |r.ls|
    ensures At(r, m, i) < |r.ls| && PassedAt(r, m, i, At(r, m, i))
    ensures Reached(m, r.StateAt(k), i) <==> k > At(r, m, i)
  {
    hide Unfolds, Reached;
    AllReached(r, m, i);
    MomentPasses(r, m, i, |r.ls|);
    var at := At(r, m, i);
    if k > at {
      ReachedBy(r, m, i, at + 1, k);
    } else if Reached(m, r.StateAt(k), i) {
      ReachedBy(r, m, i, k, at);
    }
  }

  ghost function At(r: Timed, m: Milestone, i: nat): nat {
    Moment(r, m, i, |r.ls|)
  }

  lemma AllReached(r: Timed, m: Milestone, i: nat)
    requires Completes(r) && i < r.jobs
    ensures Reached(m, r.StateAt(|r.ls|), i)
  {
    hide Reached, Inv;
    StateSound(r, |r.ls|);
    ReturnedIsComplete(r.StateAt(|r.ls|));
    InMilestoneOrder(r.StateAt(|r.ls|), i);
    CompleteReached(r.StateAt(|r.ls|), i);
  }

  lemma CompleteReached(s: Batch, i: nat)
    requires Complete(s) && !s.cancelled && i < |s.progress|
    ensures Reached(End, s, i)
  {
  }

  // ---------- the schedule of a run ----------

  /** The worker a job was handed to. */
  ghost function On(r: Timed, i: nat): nat {
    var p := r.StateAt(At(r, Begin, i) + 1).progress;
    if i < |p| && p[i].Probing? then p[i].worker else 0
  }

  ghost function TimeOf(r: Timed, m: Milestone, i: nat): Time {
    if At(r, m, i) < |r.at| then r.at[At(r, m, i)] else 0
  }

  ghost function ScheduleOf(r: Timed): Schedule {
    Schedule(seq(r.jobs, i requires 0 <= i < r.jobs => TimeOf(r, Release, i)),
             seq(r.jobs, i requires 0 <= i < r.jobs => TimeOf(r, Begin, i)),
             seq(r.jobs, i requires 0 <= i < r.jobs => TimeOf(r, End, i)),
             seq(r.jobs, i requires 0 <= i < r.jobs => On(r, i)))
  }

  /** A job is released by its timer, and begun by a hand-over to the worker it then is on. */
  lemma HowReached(s: Batch, l: Label, i: nat)
    requires Inv(s) && Enabled(s, l) && !s.cancelled && i < |s.progress|
    ensures Reached(Release, Next(s, l), i) && !Reached(Release, s, i) ==> l == TimerFires(i)
    ensures Reached(Begin, Next(s, l), i) && !Reached(Begin, s, i) ==>
      && Next(s, l).progress[i].Probing? && Next(s, l).progress[i].worker < |s.workers|
  {
    hide PhaseInv;
  }

  /** A job stays on its worker. */
  lemma SameWorker(s: Batch, l: Label, i: nat)
    requires Inv(s) && Enabled(s, l) && i < |s.progress| && (s.progress[i].Probing? || s.progress[i].Running?)
    ensures |Next(s, l).progress| == |s.progress|
    ensures var p := Next(s, l).progress[i];
            p.Finished? || ((p.Probing? || p.Running?) && p.worker == s.progress[i].worker)
  {
    hide PhaseInv;
  }

  lemma {:induction false} OnUntilEnd(r: Timed, i: nat, k: nat)
    requires Completes(r) && i < r.jobs && At(r, Begin, i) < k <= At(r, End, i)
    ensures k <= |r.ls| && i < |r.StateAt(k).progress| && OnWorker(r.StateAt(k).progress[i], On(r, i))
  {
    hide Completes, Unfolds, At, On, OnWorker, Reached, Run, Inv;
    EndComes(r, i);
    if k - 1 == At(r, Begin, i) {
      OnFromBegin(r, i);
    } else {
      OnUntilEnd(r, i, k - 1);
      StaysOn(r, i, k - 1, On(r, i));
    }
  }

  lemma EndComes(r: Timed, i: nat)
    requires Completes(r) && i < r.jobs
    ensures At(r, End, i) < |r.ls|
  {
    hide Completes, At, Reached;
    MomentSplits(r, End, i, 0);
  }

  lemma OnFromBegin(r: Timed, i: nat)
    requires Completes(r) && i < r.jobs
    ensures At(r, Begin, i) < |r.ls| && i < |r.StateAt(At(r, Begin, i) + 1).progress|
    ensures OnWorker(r.StateAt(At(r, Begin, i) + 1).progress[i], On(r, i))
  {
    hide Unfolds, Inv, Enabled, Next, Reached, At;
    var k := At(r, Begin, i);
    MomentSplits(r, Begin, i, 0);
    StateSound(r, k);
    StateSound(r, k + 1);
    StateStep(r, k);
    HowReached(r.StateAt(k), r.ls[k], i);
  }

  lemma StaysOn(r: Timed, i: nat, k: nat, w: nat)
    requires Completes(r) && i < r.jobs && k < At(r, End, i) && k < |r.ls|
    requires i < |r.StateAt(k).progress| && OnWorker(r.StateAt(k).progress[i], w)
    ensures i < |r.StateAt(k + 1).progress| && OnWorker(r.StateAt(k + 1).progress[i], w)
  {
    hide Unfolds, Inv, Enabled, Next, At;
    MomentSplits(r, End, i, k + 1);
    StateSound(r, k);
    StateSound(r, k + 1);
    StateStep(r, k);
    SameWorker(r.StateAt(k), r.ls[k], i);
  }

  lemma MomentOrder(r: Timed, i: nat)
    requires Completes(r) && i < r.jobs
    ensures At(r, Release, i) <= At(r, Begin, i) <= At(r, End, i) < |r.ls|
  {
    hide Unfolds, Inv, Reached, At;
    var k1, k2 := At(r, Begin, i), At(r, End, i);
    MomentSplits(r, Begin, i, 0);
    MomentSplits(r, End, i, 0);
    StateSound(r, k1 + 1);
    InMilestoneOrder(r.StateAt(k1 + 1), i);
    MomentSplits(r, Release, i, k1 + 1);
    StateSound(r, k2 + 1);
    InMilestoneOrder(r.StateAt(k2 + 1), i);
    MomentSplits(r, Begin, i, k2 + 1);
  }

  lemma ReleasedByTimer(r: Timed, i: nat)
    requires Completes(r) && i < r.jobs
    ensures At(r, Release, i) < |r.ls| && r.ls[At(r, Release, i)] == TimerFires(i)
  {
    hide Unfolds, Inv, Reached, At, Enabled, Next;
    var k := At(r, Release, i);
    MomentSplits(r, Release, i, 0);
    StateSound(r, k);
    StateStep(r, k);
    HowReached(r.StateAt(k), r.ls[k], i);
  }

  lemma BegunOn(r: Timed, i: nat)
    requires Completes(r) && i < r.jobs
    ensures On(r, i) < r.workers
  {
    hide Unfolds, Inv, Reached, At, Enabled, Next;
    var k := At(r, Begin, i);
    MomentSplits(r, Begin, i, 0);
    StateSound(r, k);
    StateSound(r, k + 1);
    StateStep(r, k);
    HowReached(r.StateAt(k), r.ls[k], i);
  }

  lemma JobTimes(r: Timed, start: Time, interval: Duration, timeout: Duration, hashes: seq<int>, i: nat)
    requires Completes(r) && Clocked(r, start) && TimersExact(r, start, interval, hashes) && ProbesInTime(r, timeout)
    requires i < r.jobs
    ensures TimeOf(r, Release, i) == start + Offset(hashes[i], interval)
    ensures TimeOf(r, Release, i) <= TimeOf(r, Begin, i) <= TimeOf(r, End, i) <= TimeOf(r, Begin, i) + timeout
    ensures On(r, i) < r.workers
  {
    hide Unfolds, Reached, At, On, Offset, PassedAt, NothingUrgent;
    MomentOrder(r, i);
    ReleasedByTimer(r, i);
    BegunOn(r, i);
    MomentSplits(r, Begin, i, 0);
    MomentSplits(r, End, i, 0);
  }

  // ---------- the pool is never idle beside a waiting dispatcher ----------

  /** How many of the first `n` actions happen up to time `t`. */
  function Until(at: seq<Time>, t: Time, n: nat): (m: nat)
    requires n <= |at|
    ensures m <= n
  {
    if n == 0 then 0 else if at[n - 1] <= t then n else Until(at, t, n - 1)
  }

  lemma {:induction false} UntilSplits(at: seq<Time>, t: Time, n: nat, k: nat)
    requires k < n <= |at| && forall i, j :: 0 <= i <= j < |at| ==> at[i] <= at[j]
    ensures at[k] <= t <==> k < Until(at, t, n)
  {
    if n > k + 1 {
      UntilSplits(at, t, n - 1, k);
    }
  }

  /** In a state in which the clock moves on, a released and not yet begun job waits for a pool
      that is busy to the last worker. */
  lemma WaitingAtRest(s: Batch, i: nat)
    requires Inv(s) && NothingUrgent(s) && !s.cancelled && i < |s.progress|
    requires Reached(Release, s, i) && !Reached(Begin, s, i)
    ensures forall w :: 0 <= w < |s.workers| ==> s.workers[w].Busy?
  {
    hide Sum;
    assert s.dispatchers[i].Sending?;
    assert s.main.Starting?;
    assert !Enabled(s, Start);
    forall w ensures !Enabled(s, Rendezvous(i, w)) {
      assert !TakesTime(Rendezvous(i, w));
    }
    WaitingMeansPoolBusy(s, i);
  }

  lemma BusyJob(s: Batch, w: nat)
    requires Inv(s) && w < |s.workers| && s.workers[w].Busy?
    ensures s.workers[w].job < |s.progress| && OnWorker(s.progress[s.workers[w].job], w)
    ensures Reached(Begin, s, s.workers[w].job) && !Reached(End, s, s.workers[w].job)
  {
    hide PhaseInv;
  }

  lemma PoolOccupied(r: Timed, start: Time, i: nat, t: Time, w: nat) returns (j: nat)
    requires Completes(r) && Clocked(r, start) && i < r.jobs && w < r.workers
    requires TimeOf(r, Release, i) <= t < TimeOf(r, Begin, i)
    ensures j < r.jobs && On(r, j) == w && TimeOf(r, Begin, j) <= t < TimeOf(r, End, j)
  {
    hide Unfolds, Inv, Reached, At, On, NothingUrgent;
    MomentOrder(r, i);
    var k := Until(r.at, t, |r.at|);
    UntilSplits(r.at, t, |r.at|, At(r, Release, i));
    UntilSplits(r.at, t, |r.at|, At(r, Begin, i));
    MomentSplits(r, Release, i, k);
    MomentSplits(r, Begin, i, k);
    UntilSplits(r.at, t, |r.at|, k);
    UntilSplits(r.at, t, |r.at|, k - 1);
    assert Before(r, start, k) < r.at[k];
    StateSound(r, k);
    WaitingAtRest(r.StateAt(k), i);
    BusyJob(r.StateAt(k), w);
    j := r.StateAt(k).workers[w].job;
    MomentOrder(r, j);
    MomentSplits(r, Begin, j, k);
    MomentSplits(r, End, j, k);
    OnUntilEnd(r, j, k);
    UntilSplits(r.at, t, |r.at|, At(r, Begin, j));
    UntilSplits(r.at, t, |r.at|, At(r, End, j));
  }

  /** Every timed run of the protocol is a schedule of the makespan bound: work conservation is
      what the protocol does, not an assumption. */
  lemma ScheduleRuns(r: Timed, start: Time, interval: Duration, timeout: Duration, hashes: seq<int>)
    requires Completes(r) && Clocked(r, start) && TimersExact(r, start, interval, hashes) && ProbesInTime(r, timeout)
    ensures Runs(ScheduleOf(r), start, interval, timeout, r.workers, hashes)
  {
    hide Unfolds, Clocked, ProbesInTime, TimeOf, On, Offset;
    var s := ScheduleOf(r);
    forall i | 0 <= i < r.jobs
      ensures s.release[i] == start + Offset(hashes[i], interval)
      ensures s.release[i] <= s.begin[i] <= s.end[i] <= s.begin[i] + timeout && s.on[i] < r.workers
    {
      JobTimes(r, start, interval, timeout, hashes, i);
    }
    forall i, t, w | 0 <= i < |s.on| && s.release[i] <= t < s.begin[i] && 0 <= w < r.workers
      ensures Occupied(s, w, t)
    {
      var j := PoolOccupied(r, start, i, t, w);
      assert BusyAt(s, w, t, j);
    }
  }

  // ---------- the whole batch is over in time ----------

  function Deadline(r: Timed, start: Time, interval: Duration, timeout: Duration): Time
    requires r.workers > 0
  {
    start + (if interval > 0 then interval else 0) + CeilDiv(r.jobs, r.workers) * timeout
  }

  /** When the clock moves on, a timer has still to fire or a probe to end. */
  lemma SomethingPending(s: Batch, r: Result) returns (i: nat)
    requires Inv(s) && NothingUrgent(s) && !s.main.Returned? && |s.workers| > 0
    ensures i < |s.progress|
    ensures !Reached(Release, s, i) || (Reached(Begin, s, i) && !Reached(End, s, i))
  {
    hide Sum;
    var l := BatchProgress(s, r);
    assert TakesTime(l);
    i := if l.TimerFires? then l.i else s.workers[l.w].job;
  }

  lemma {:induction false} EndsBefore(
    r: Timed, start: Time, interval: Duration, timeout: Duration, hashes: seq<int>, k: nat)
    requires Completes(r) && Clocked(r, start) && TimersExact(r, start, interval, hashes) && ProbesInTime(r, timeout)
    requires r.workers > 0 && (timeout >= 0 || r.jobs == 0) && k < |r.ls|
    ensures r.at[k] <= Deadline(r, start, interval, timeout)
  {
    hide Unfolds, Inv, Reached, At, NothingUrgent, ScheduleOf, Offset, CeilDiv, ProbesInTime;
    if Before(r, start, k) == r.at[k] {
      if k == 0 {
        DeadlineLater(r, start, interval, timeout);
      } else {
        EndsBefore(r, start, interval, timeout, hashes, k - 1);
      }
    } else {
      StateSound(r, k);
      NotReturnedYet(r, k);
      var i := SomethingPending(r.StateAt(k), Result("", 0, 0, None, 0, 0, 0, 0, 0, 0));
      MomentOrder(r, i);
      MomentSplits(r, Release, i, k);
      MomentSplits(r, End, i, k);
      JobEndsInTime(r, start, interval, timeout, hashes, i);
    }
  }

  lemma DeadlineLater(r: Timed, start: Time, interval: Duration, timeout: Duration)
    requires r.workers > 0 && (timeout >= 0 || r.jobs == 0)
    ensures start <= Deadline(r, start, interval, timeout)
  {
    if r.jobs > 0 {
      Multiples(0, CeilDiv(r.jobs, r.workers), timeout);
    }
  }

  lemma NotReturnedYet(r: Timed, k: nat)
    requires Completes(r) && k < |r.ls|
    ensures !r.StateAt(k).main.Returned?
  {
    StateSound(r, k);
    StateStep(r, k);
    hide Unfolds, Sum;
    if r.StateAt(k).main.Returned? {
      ReturnedIsFinal(r.StateAt(k), r.ls[k]);
    }
  }

  /** After the return only the cancellation can still happen. */
  lemma ReturnedIsFinal(s: Batch, l: Label)
    requires Inv(s) && s.main.Returned? && Enabled(s, l)
    ensures l.Cancel?
  {
    ReturnedIsComplete(s);
  }

  lemma JobEndsInTime(r: Timed, start: Time, interval: Duration, timeout: Duration, hashes: seq<int>, i: nat)
    requires Completes(r) && Clocked(r, start) && TimersExact(r, start, interval, hashes) && ProbesInTime(r, timeout)
    requires r.workers > 0 && i < r.jobs
    ensures TimeOf(r, End, i) <= Deadline(r, start, interval, timeout)
    ensures TimeOf(r, Release, i) <= TimeOf(r, End, i)
  {
    hide Unfolds, Clocked, TimersExact, ProbesInTime, Runs, Offset, TimeOf, On;
    ScheduleRuns(r, start, interval, timeout, hashes);
    JobTimes(r, start, interval, timeout, hashes, i);
    MakespanBound(ScheduleOf(r), start, interval, timeout, r.workers, hashes, i);
  }

  /** Every timed run of a batch is over, its last action included, no later than interval plus
      ceil(n / workers) timeouts after it began. */
  lemma BatchEndsInTime(r: Timed, start: Time, interval: Duration, timeout: Duration, hashes: seq<int>)
    requires Completes(r) && Clocked(r, start) && TimersExact(r, start, interval, hashes) && ProbesInTime(r, timeout)
    requires r.workers > 0
    ensures forall k :: 0 <= k < |r.at| ==> r.at[k] <= Deadline(r, start, interval, timeout)
  {
    hide Unfolds, TimersExact, ProbesInTime, Deadline;
    if r.jobs > 0 {
      JobTimes(r, start, interval, timeout, hashes, 0);
    }
    forall k | 0 <= k < |r.at| ensures r.at[k] <= Deadline(r, start, interval, timeout) {
      EndsBefore(r, start, interval, timeout, hashes, k);
    }
  }
}
