/** Exactly when shutdown keeps its promises: for each set of waits that give up, what the writers
    left behind can still do. */
module Overstay {
  import opened Monitoring
  import opened Notify
  import opened CertAlarm
  import opened Probe
  import opened Agreement
  import opened Shutdown
  import Batch = ProbeBatch
  import Queue = AsyncQueue

  // ---------- runs that lead somewhere ----------

  ghost predicate Leads(s: Server, t: Server) {
    exists ms :: Run(s, ms) == Some(t)
  }

  lemma Nowhere(s: Server)
    ensures Leads(s, s)
  {
    assert Run(s, []) == Some(s);
  }

  lemma Onward(s: Server, t: Server, m: Move)
    requires Leads(s, t) && Enabled(t, m)
    ensures Leads(s, Next(t, m))
  {
    hide Enabled, Next;
    var ms :| Run(s, ms) == Some(t);
    assert (ms + [m])[..|ms|] == ms;
    assert Run(s, ms + [m]) == Some(Next(t, m));
  }

  // ---------- one shutdown for each set of waits ----------

  /** Up and running, nothing closed, nobody inside the queue. */
  predicate Healthy(s: Server) {
    && s.main.Serving? && s.sweeping && s.watching && !s.lateWrite
    && s.overstayed == Waits(false, false, false)
    && s.queue.closers == [Queue.Calm] && !s.queue.closed && !s.queue.channelClosed
    && !s.queue.writer && s.queue.readers == 0 && s.queue.queue == [] && s.queue.worker.Receiving?
    && CanHappen(s.daemon, Happening.Cancel)
  }

  function Signalled(s: Server): Server
    requires Healthy(s)
  {
    s.(daemon := Happen(s.daemon, Happening.Cancel), main := AwaitingScheduler)
  }

  /** `run` waits for the scheduler, or gives up on it. */
  function PastScheduler(s: Server, o: Waits): Server {
    if o.scheduler then s.(main := AwaitingRetention, overstayed := s.overstayed.(scheduler := true))
    else s.(main := AwaitingRetention, daemon := s.daemon.(phase := Phase.Stopped))
  }

  lemma SchedulerAwaited(b: Server, s: Server, o: Waits)
    requires Leads(b, s) && s.main.AwaitingScheduler? && s.daemon.cancelled
    requires o.scheduler || s.daemon.phase.First?
    ensures Leads(b, PastScheduler(s, o))
  {
    hide Leads;
    if o.scheduler {
      Onward(b, s, WaitTimesOut);
    } else {
      Onward(b, s, Scheduler(ListFails));
      var u := Next(s, Scheduler(ListFails));
      Onward(b, u, Scheduler(Stop));
      Onward(b, Next(u, Scheduler(Stop)), WaitSucceeds);
    }
  }

  function PastRetention(s: Server, o: Waits): Server {
    if o.retention then s.(main := AwaitingWatcher, overstayed := s.overstayed.(retention := true))
    else s.(main := AwaitingWatcher, sweeping := false)
  }

  lemma RetentionAwaited(b: Server, s: Server, o: Waits)
    requires Leads(b, s) && s.main.AwaitingRetention? && s.daemon.cancelled
    ensures Leads(b, PastRetention(s, o))
  {
    hide Leads;
    if o.retention {
      Onward(b, s, WaitTimesOut);
    } else {
      Onward(b, s, SweepingEnds);
      Onward(b, Next(s, SweepingEnds), WaitSucceeds);
    }
  }

  function PastWatcher(s: Server, o: Waits): Server {
    if o.watcher then s.(main := Draining, overstayed := s.overstayed.(watcher := true))
    else s.(main := Draining, watching := false)
  }

  lemma WatcherAwaited(b: Server, s: Server, o: Waits)
    requires Leads(b, s) && s.main.AwaitingWatcher?
    ensures Leads(b, PastWatcher(s, o))
  {
    hide Leads;
    if o.watcher {
      Onward(b, s, WaitTimesOut);
    } else {
      Onward(b, s, WatchingEnds);
      Onward(b, Next(s, WatchingEnds), WaitSucceeds);
    }
  }

  function ClosedQueue(q: Queue.AsyncState): Queue.AsyncState {
    q.(closed := true, channelClosed := true, closers := [Queue.Returned(true)], worker := Queue.Exited)
  }

  const CLOSING: seq<Queue.Label> := [
    Queue.Announce(0), Queue.Acquire(0), Queue.MarkClosed(0), Queue.CloseChannel(0), Queue.Release(0),
    Queue.Exit, Queue.SeeDrained(0)]

  const CLOSERS: seq<Queue.Closer> := [
    Queue.Calm, Queue.Announced, Queue.Holding, Queue.Marked, Queue.Releasing, Queue.Awaiting,
    Queue.Awaiting, Queue.Returned(true)]

  /** The queue after the first `k` actions of `Close` on an idle queue. */
  function WhileClosing(q: Queue.AsyncState, k: nat): Queue.AsyncState
    requires k <= 7
  {
    q.(closers := [CLOSERS[k]], writer := 1 <= k <= 4, closed := k >= 3, channelClosed := k >= 4,
       worker := if k >= 6 then Queue.Exited else q.worker)
  }

  lemma ClosingStep(q: Queue.AsyncState, k: nat)
    requires k < 7 && q.readers == 0 && q.queue == [] && q.worker.Receiving?
    ensures Queue.Enabled(WhileClosing(q, k), CLOSING[k])
    ensures Queue.Next(WhileClosing(q, k), CLOSING[k]) == WhileClosing(q, k + 1)
  {
  }

  lemma QueueMove(b: Server, s: Server, l: Queue.Label)
    requires Leads(b, s) && s.main.Draining? && Queue.Enabled(s.queue, l) && !l.CallNotify? && !l.Leave?
    ensures Leads(b, s.(queue := Queue.Next(s.queue, l)))
  {
    hide Leads, Queue.Enabled, Queue.Next;
    Onward(b, s, InQueue(l));
  }

  lemma {:induction false} ClosingSteps(b: Server, s: Server, k: nat)
    requires Leads(b, s) && s.main.Draining? && s.queue.readers == 0 && k <= 7
    requires s.queue == WhileClosing(s.queue, 0) && s.queue.queue == [] && s.queue.worker.Receiving?
    ensures Leads(b, s.(queue := WhileClosing(s.queue, k)))
  {
    if k == 0 {
      assert s == s.(queue := s.queue);
    } else {
      hide Leads, Queue.Enabled, Queue.Next, WhileClosing;
      ClosingSteps(b, s, k - 1);
      ClosingStep(s.queue, k - 1);
      QueueMove(b, s.(queue := WhileClosing(s.queue, k - 1)), CLOSING[k - 1]);
    }
  }

  lemma StoreIsClosed(b: Server, s: Server)
    requires Leads(b, s) && s.main.Draining? && s.queue.readers == 0 && s.queue == WhileClosing(s.queue, 0)
    requires s.queue.queue == [] && s.queue.worker.Receiving?
    ensures Leads(b, s.(main := Done, queue := ClosedQueue(s.queue)))
  {
    ClosingSteps(b, s, 7);
    hide Leads;
    var t := s.(queue := ClosedQueue(s.queue));
    assert t == s.(queue := WhileClosing(s.queue, 7));
    Onward(b, t, DrainReturns);
    Onward(b, Next(t, DrainReturns), CloseStore);
  }

  /** The state after a shutdown in which exactly the waits of `o` gave up and the drain succeeded. */
  function ShutDown(s: Server, o: Waits): Server
    requires Healthy(s)
  {
    var d := Happen(s.daemon, Happening.Cancel);
    s.(daemon := if o.scheduler then d else d.(phase := Phase.Stopped), queue := ClosedQueue(s.queue), main := Done,
       sweeping := o.retention, watching := o.watcher, overstayed := o)
  }

  lemma ShutDownLeads(b: Server, s: Server, o: Waits)
    requires Healthy(s) && Leads(b, s) && (o.scheduler || s.daemon.phase.First?)
    ensures Leads(b, ShutDown(s, o))
  {
    hide Leads, CanHappen;
    SignalArrivesFrom(b, s);
    var s1 := Signalled(s);
    SchedulerAwaited(b, s1, o);
    var s2 := PastScheduler(s1, o);
    RetentionAwaited(b, s2, o);
    var s3 := PastRetention(s2, o);
    WatcherAwaited(b, s3, o);
    var s4 := PastWatcher(s3, o);
    StoreIsClosed(b, s4);
    assert s4.(main := Done, queue := ClosedQueue(s4.queue)) == ShutDown(s, o);
  }

  lemma SignalArrivesFrom(b: Server, s: Server)
    requires Healthy(s) && Leads(b, s)
    ensures Leads(b, Signalled(s)) && Signalled(s).daemon.cancelled
    ensures s.daemon.phase.First? ==> Signalled(s).daemon.phase.First?
  {
    hide Leads;
    Onward(b, s, Signal);
    Onward(b, Next(s, Signal), BeginShutdown);
  }

  // ---------- a probe that is still under way ----------

  const TARGET := Monitor("target", "http://target")

  /** The next whole second, which an X.509 certificate can expire at, other than the zero time. */
  function NextSecond(now: Time): Time {
    var t := (Unix(now) + 1) * SECOND;
    if t == ZERO_TIME then t + SECOND else t
  }

  /** A reply with a certificate about to expire. */
  function Reply(now: Time): (r: Result)
    ensures r.IsUp() && ProberShaped(r) && HasCert(r) && r.certExpiry % SECOND == 0
  {
    Result(TARGET.name, 200, 0, None, now, NextSecond(now), 0, 0, 0, 0)
  }

  /** Nothing but the daemon has moved since boot. */
  predicate Booted(s: Server, b: Server) {
    s == b.(daemon := s.daemon)
  }

  /** The batch of the one monitor, with the pool and the dispatcher started up to `k`. */
  predicate Starting(s: Server, b: Server, k: nat) {
    && Booted(s, b) && !s.daemon.cancelled && s.daemon.now == b.daemon.now
    && s.daemon.world == b.daemon.world
    && s.daemon.phase.InBatch? && s.daemon.phase.names == [TARGET.name]
    && var t := s.daemon.phase.batch;
       && t.main == Batch.Starting(k) && !t.cancelled && !t.closed && |t.workers| == b.daemon.pool
       && t.dispatchers == [Batch.Unborn] && t.progress == [Batch.NotStarted]
       && (k > 0 && |t.workers| > 0 ==> t.workers[0] == Batch.Receiving)
  }

  lemma {:induction false} PoolStarts(b: Server, k: nat) returns (s: Server)
    requires b.main.Serving? && b.watching && b.daemon.phase.First? && !b.daemon.cancelled && !b.lateWrite
    requires b.daemon.world.history == map[] && k <= b.daemon.pool && b.daemon.pool > 0
    ensures Leads(b, s) && Starting(s, b.(daemon := b.daemon.(list := [TARGET])), k)
  {
    hide Leads;
    if k == 0 {
      Nowhere(b);
      Onward(b, b, Reload([TARGET]));
      var u := Next(b, Reload([TARGET]));
      assert u.daemon.world == b.daemon.world;
      Onward(b, u, Scheduler(BeginBatch));
      s := Next(u, Scheduler(BeginBatch));
      assert NamesOf([TARGET]) == [TARGET.name];
    } else {
      var u := PoolStarts(b, k - 1);
      Onward(b, u, Scheduler(BatchStep(Batch.Start)));
      s := Next(u, Scheduler(BatchStep(Batch.Start)));
    }
  }

  /** The probe of the one monitor stands before `stage`; no tracker has an alert to raise yet. */
  predicate Underway(s: Server, b: Server, stage: Batch.Stage) {
    && Booted(s, b) && !s.daemon.cancelled && s.daemon.now == b.daemon.now
    && s.daemon.world.certs == map[] && s.daemon.world.pending == map[]
    && (stage.Saving? || stage.Debouncing? ==> s.daemon.world.track == map[])
    && s.daemon.phase.InBatch? && s.daemon.phase.names == [TARGET.name]
    && var t := s.daemon.phase.batch;
       && !t.cancelled && !t.main.Returned? && |t.workers| == b.daemon.pool > 0 && t.workers[0] == Batch.Busy(0)
       && t.progress == [Batch.Running(0, stage, Reply(b.daemon.now))]
  }

  lemma BatchMove(b: Server, s: Server, l: Batch.Label)
    requires Leads(b, s) && CanHappen(s.daemon, BatchStep(l))
    requires l.StageDone? ==> Alert(s.daemon, l.w).None?
    requires !StoreClosed(s)
    ensures Leads(b, s.(daemon := Happen(s.daemon, BatchStep(l))))
  {
    hide Leads, CanHappen, Happen, Alert;
    Onward(b, s, Scheduler(BatchStep(l)));
  }

  lemma ProbeReturns(b: Server, s: Server, c: Server) returns (t: Server)
    requires Leads(b, s) && Starting(s, c, c.daemon.pool) && c.daemon.pool > 0 && c.main.Serving?
    requires c.daemon.world == EMPTY_WORLD
    ensures Leads(b, t) && Underway(t, c, Batch.Saving)
  {
    hide Leads, Alert, Enabled, Next, Run;
    BatchMove(b, s, Batch.Start);
    var s1 := s.(daemon := Happen(s.daemon, BatchStep(Batch.Start)));
    BatchMove(b, s1, Batch.TimerFires(0));
    var s2 := s1.(daemon := Happen(s1.daemon, BatchStep(Batch.TimerFires(0))));
    BatchMove(b, s2, Batch.Rendezvous(0, 0));
    var s3 := s2.(daemon := Happen(s2.daemon, BatchStep(Batch.Rendezvous(0, 0))));
    BatchMove(b, s3, Batch.ProbeReturns(0, Reply(c.daemon.now)));
    t := s3.(daemon := Happen(s3.daemon, BatchStep(Batch.ProbeReturns(0, Reply(c.daemon.now)))));
  }

  /** A first success is silent. */
  lemma QuietStage(w: World, stage: Batch.Stage, now: Time)
    requires w.certs == map[] && w.pending == map[] && (stage.Debouncing? ==> w.track == map[])
    requires stage.Saving? || stage.Debouncing? || stage.TellingState?
    ensures var v := DoStage(w, stage, Reply(now));
            v.certs == map[] && v.pending == map[] && (stage.Saving? ==> v.track == w.track)
  {
  }

  lemma StageDone(b: Server, s: Server, c: Server, stage: Batch.Stage) returns (t: Server)
    requires Leads(b, s) && Underway(s, c, stage) && c.main.Serving?
    requires stage.Saving? || stage.Debouncing? || stage.TellingState?
    ensures Leads(b, t) && Underway(t, c, stage.Following())
  {
    hide Leads, Enabled, Next, Run;
    QuietStage(s.daemon.world, stage, c.daemon.now);
    hide DoStage;
    BatchMove(b, s, Batch.StageDone(0));
    t := s.(daemon := Happen(s.daemon, BatchStep(Batch.StageDone(0))));
  }

  /** From every boot with a worker, a probe can be under way, just before its result is saved, or
      just before its certificate is looked at. */
  lemma ProbeUnderWay(pool: nat, now: Time, capacity: nat, children: nat, stage: Batch.Stage)
    returns (s: Server, c: Server)
    requires pool > 0 && (stage.Saving? || stage.CertChecking?)
    ensures Leads(Boot(pool, now, capacity, children), s) && Underway(s, c, stage) && Healthy(s)
    ensures c.daemon.pool == pool && s.queue == Boot(pool, now, capacity, children).queue
  {
    var b := Boot(pool, now, capacity, children);
    c := b.(daemon := b.daemon.(list := [TARGET]));
    hide Leads, Starting, Underway;
    s := PoolStarts(b, pool);
    s := ProbeReturns(b, s, c);
    if stage.CertChecking? {
      s := StageDone(b, s, c, Batch.Saving);
      s := StageDone(b, s, c, Batch.Debouncing);
      s := StageDone(b, s, c, Batch.TellingState);
    }
    UnderwayHealthy(s, c, stage);
  }

  lemma UnderwayHealthy(s: Server, c: Server, stage: Batch.Stage)
    requires Underway(s, c, stage) && Healthy(c)
    ensures Healthy(s) && s.queue == c.queue
  {
  }

  // ---------- exactly when the store is written after its close ----------

  lemma BootHealthy(pool: nat, now: Time, capacity: nat, children: nat)
    ensures var b := Boot(pool, now, capacity, children);
            Healthy(b) && Leads(b, b) && b.daemon.phase.First? && b.daemon.pool == pool
  {
    Nowhere(Boot(pool, now, capacity, children));
  }

  lemma SomeoneWrites(pool: nat, now: Time, capacity: nat, children: nat, o: Waits) returns (t: Server)
    requires WriterLeft(o, pool)
    ensures Leads(Boot(pool, now, capacity, children), t) && t.overstayed == o && t.lateWrite
  {
    var b := Boot(pool, now, capacity, children);
    BootHealthy(pool, now, capacity, children);
    hide Leads, Boot, Healthy;
    if o.scheduler && pool > 0 {
      var s, c := ProbeUnderWay(pool, now, capacity, children, Batch.Saving);
      ShutDownLeads(b, s, o);
      LateSave(b, s, c, o);
      t := Next(ShutDown(s, o), Scheduler(BatchStep(Batch.StageDone(0))));
    } else {
      var s := LoneShutDown(b, o);
      if o.retention {
        Onward(b, s, Sweep(now));
        t := Next(s, Sweep(now));
      } else {
        Onward(b, s, Reload([TARGET]));
        t := Next(s, Reload([TARGET]));
      }
    }
  }

  lemma LoneShutDown(b: Server, o: Waits) returns (s: Server)
    requires Healthy(b) && b.daemon.phase.First?
    ensures Leads(b, s) && s.main.Done? && s.overstayed == o && s.sweeping == o.retention && s.watching == o.watcher
  {
    hide Leads;
    Nowhere(b);
    ShutDownLeads(b, b, o);
    s := ShutDown(b, o);
  }

  lemma LateSave(b: Server, s: Server, c: Server, o: Waits)
    requires Underway(s, c, Batch.Saving) && Healthy(s) && o.scheduler && Leads(b, ShutDown(s, o))
    ensures Enabled(ShutDown(s, o), Scheduler(BatchStep(Batch.StageDone(0))))
    ensures var t := Next(ShutDown(s, o), Scheduler(BatchStep(Batch.StageDone(0))));
            Leads(b, t) && t.overstayed == o && t.lateWrite
  {
    hide Leads;
    Onward(b, ShutDown(s, o), Scheduler(BatchStep(Batch.StageDone(0))));
  }

  /** For every set of waits that give up: some run with exactly those timeouts writes to the store
      after its close if and only if the sweep or the watcher was left behind, or the scheduler with
      a worker to probe. */
  lemma LateWriteExactly(pool: nat, now: Time, capacity: nat, children: nat, o: Waits)
    ensures (exists t :: Leads(Boot(pool, now, capacity, children), t) && t.overstayed == o && t.lateWrite)
      <==> WriterLeft(o, pool)
  {
    hide Boot, Run;
    if WriterLeft(o, pool) {
      var t := SomeoneWrites(pool, now, capacity, children, o);
    }
    forall t | Leads(Boot(pool, now, capacity, children), t) && t.overstayed == o && t.lateWrite
      ensures WriterLeft(o, pool)
    {
      var ms :| Run(Boot(pool, now, capacity, children), ms) == Some(t);
      ShutdownEndToEnd(pool, now, capacity, children, ms, "");
    }
  }

  // ---------- exactly when an alert is refused as closed ----------

  /** Worker 0 is about to tell `e`. */
  predicate Telling(s: Server, e: Event) {
    Alert(s.daemon, 0) == Some(e) && |s.queue.producers| > 0 && s.queue.producers[0].Idle?
  }

  lemma CertAlarmRaised(w: World, now: Time) returns (e: Event)
    requires w.certs == map[]
    ensures Find(DoStage(w, Batch.CertChecking, Reply(now)).pending, TARGET.name) == Some(e)
  {
    var r := Reply(now);
    DaysLeftBoundary(r.certExpiry, r.checkedAt);
    hide DaysLeft;
    e := CertExpiring(TARGET.name, r.certExpiry, DaysLeft(r.certExpiry, r.checkedAt));
  }

  lemma AlertRaised(b: Server, s: Server, c: Server) returns (t: Server, e: Event)
    requires Leads(b, s) && Underway(s, c, Batch.CertChecking) && Healthy(s)
    requires |s.queue.producers| > 0 && s.queue.producers[0].Idle?
    ensures Leads(b, t) && Healthy(t) && t.daemon.phase.InBatch? && Telling(t, e) && t.queue == s.queue
  {
    hide Leads, Enabled, Next, Run;
    e := CertAlarmRaised(s.daemon.world, c.daemon.now);
    hide DoStage;
    BatchMove(b, s, Batch.StageDone(0));
    t := s.(daemon := Happen(s.daemon, BatchStep(Batch.StageDone(0))));
  }

  /** Being signalled does not take the alert away. */
  lemma StillTelling(s: Server, e: Event, o: Waits)
    requires Healthy(s) && Telling(s, e) && o.scheduler
    ensures Telling(ShutDown(s, o), e)
  {
  }

  lemma Refused(b: Server, s: Server, e: Event) returns (t: Server)
    requires Leads(b, s) && Telling(s, e) && s.queue.closed && !s.queue.writer
    ensures Leads(b, t) && t.overstayed == s.overstayed && Refusing(t)
  {
    hide Leads, Alert;
    Onward(b, s, Tells(0));
    var u := Next(s, Tells(0));
    Onward(b, u, InQueue(Queue.Enter(0)));
    var v := Next(u, InQueue(Queue.Enter(0)));
    Onward(b, v, InQueue(Queue.CheckClosed(0)));
    t := Next(v, InQueue(Queue.CheckClosed(0)));
    assert t.queue.calls[|t.queue.calls| - 1].outcome == Queue.Closed;
  }

  lemma SomeoneIsRefused(pool: nat, now: Time, capacity: nat, children: nat, o: Waits) returns (t: Server)
    requires o.scheduler && pool > 0
    ensures Leads(Boot(pool, now, capacity, children), t) && t.overstayed == o && Refusing(t)
  {
    var b := Boot(pool, now, capacity, children);
    var s, c := ProbeUnderWay(pool, now, capacity, children, Batch.CertChecking);
    hide Leads, Underway;
    var u, e := AlertRaised(b, s, c);
    hide Boot, Telling, Refusing;
    ShutDownLeads(b, u, o);
    StillTelling(u, e, o);
    t := Refused(b, ShutDown(u, o), e);
  }

  /** For every set of waits that give up: some run with exactly those timeouts refuses an alert as
      closed if and only if the scheduler is among them and has a worker. */
  lemma RefusalExactly(pool: nat, now: Time, capacity: nat, children: nat, o: Waits)
    ensures (exists t :: Leads(Boot(pool, now, capacity, children), t) && t.overstayed == o && Refusing(t))
      <==> o.scheduler && pool > 0
  {
    hide Boot, Run, Refusing;
    if o.scheduler && pool > 0 {
      var t := SomeoneIsRefused(pool, now, capacity, children, o);
    }
    forall t | Leads(Boot(pool, now, capacity, children), t) && t.overstayed == o && Refusing(t)
      ensures o.scheduler && pool > 0
    {
      var ms :| Run(Boot(pool, now, capacity, children), ms) == Some(t);
      ShutdownEndToEnd(pool, now, capacity, children, ms, "");
    }
  }
}
