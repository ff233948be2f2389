/** The whole daemon on its signal path: the scheduler, the retention sweep and the config watcher
    write to the store, probe workers hand alerts to the asynchronous queue, and `run` waits for the
    writers, drains the queue and closes the store. */
module Shutdown {
  import opened Monitoring
  import opened Sequences
  import opened Notify
  import opened Probe
  import opened Agreement
  import Batch = ProbeBatch
  import Queue = AsyncQueue
  import Interleaving

  /** Where `run` stands. */
  datatype Main =
    | Serving
    | AwaitingScheduler
    | AwaitingRetention
    | AwaitingWatcher
    | Draining
    | ClosingStore
    | Done

  function Rank(m: Main): nat {
    match m
    case Serving => 0
    case AwaitingScheduler => 1
    case AwaitingRetention => 2
    case AwaitingWatcher => 3
    case Draining => 4
    case ClosingStore => 5
    case Done => 6
  }

  /** Which of the waits for a writer gave up, leaving that writer behind. */
  datatype Waits = Waits(scheduler: bool, retention: bool, watcher: bool)

  /** `lateWrite`: the store was written after its close. Producer `w` of the queue is worker `w` of
      the probe pool; closer 0 is `run`. */
  datatype Server = Server(
    daemon: Daemon,
    queue: Queue.AsyncState,
    sweeping: bool,
    watching: bool,
    main: Main,
    overstayed: Waits,
    lateWrite: bool
  )

  function Boot(pool: nat, now: Time, capacity: nat, children: nat): Server {
    Server(Fresh(pool, now), Queue.Initial(capacity, pool, 1, children), true, true, Serving,
           Waits(false, false, false), false)
  }

  datatype Move =
    | Scheduler(event: Happening)
    | Signal
    | Sweep(cutoff: Time)
    | SweepingEnds
    | Reload(list: seq<Monitor>)
    | WatchingEnds
    | Tells(w: nat)
    | InQueue(step: Queue.Label)
    | TellingEnds(w: nat)
    | BeginShutdown
    | WaitSucceeds
    | WaitTimesOut
    | DrainReturns
    | CloseStore

  /** The alert worker `w` is about to tell: its probe is at a telling stage with one pending. */
  function Alert(d: Daemon, w: nat): Option<Event> {
    if d.phase.InBatch? && w < |d.phase.batch.workers| && d.phase.batch.workers[w].Busy?
      && d.phase.batch.workers[w].job < |d.phase.batch.progress| then
      var p := d.phase.batch.progress[d.phase.batch.workers[w].job];
      if p.Running? && (p.stage.TellingState? || p.stage.TellingCert? || p.stage.TellingFlap?)
      then Find(d.world.pending, p.result.monitorName) else None
    else None
  }

  /** The queue actions that belong to a call in progress, to the worker, or to the closing `run`. */
  predicate FreeStep(s: Server, l: Queue.Label) {
    match l
    case CallNotify(_, _) => false
    case Leave(_) => false
    case Announce(c) => s.main.Draining?
    case _ => true
  }

  predicate Enabled(s: Server, m: Move) {
    match m
    case Scheduler(e) =>
      && CanHappen(s.daemon, e)
      && (e.BeginBatch? || e.ListFails? || e.Stop? || e.Clock? || e.BatchStep?)
      && (e.BatchStep? && e.step.StageDone? ==> Alert(s.daemon, e.step.w).None?)
    case Signal => CanHappen(s.daemon, Happening.Cancel)
    case Sweep(_) => s.sweeping
    case SweepingEnds => s.daemon.cancelled
    case Reload(ms) => s.watching && ValidList(ms)
    case WatchingEnds => true
    case Tells(w) => Alert(s.daemon, w).Some? && w < |s.queue.producers| && s.queue.producers[w].Idle?
    case InQueue(l) => FreeStep(s, l) && Queue.Enabled(s.queue, l)
    case TellingEnds(w) =>
      && Alert(s.daemon, w).Some? && Queue.Enabled(s.queue, Queue.Leave(w))
      && CanHappen(s.daemon, BatchStep(Batch.StageDone(w)))
    case BeginShutdown => s.main.Serving? && s.daemon.cancelled
    case WaitSucceeds =>
      || (s.main.AwaitingScheduler? && s.daemon.phase.Stopped?)
      || (s.main.AwaitingRetention? && !s.sweeping)
      || (s.main.AwaitingWatcher? && !s.watching)
    case WaitTimesOut => s.main.AwaitingScheduler? || s.main.AwaitingRetention? || s.main.AwaitingWatcher?
    case DrainReturns => s.main.Draining? && |s.queue.closers| > 0 && s.queue.closers[0].Returned?
    case CloseStore => s.main.ClosingStore?
  }

  predicate StoreClosed(s: Server) {
    s.main.Done?
  }

  predicate WritesStore(d: Daemon, e: Happening) {
    || e.Sync? || e.Prune?
    || (e.BatchStep? && CanHappen(d, e) && e.step.StageDone?
      && d.phase.batch.progress[d.phase.batch.workers[e.step.w].job].stage.Saving?)
  }

  function WithEvent(s: Server, e: Happening): Server
    requires CanHappen(s.daemon, e)
  {
    s.(daemon := Happen(s.daemon, e), lateWrite := s.lateWrite || (StoreClosed(s) && WritesStore(s.daemon, e)))
  }

  function Following(m: Main): Main {
    match m
    case AwaitingScheduler => AwaitingRetention
    case AwaitingRetention => AwaitingWatcher
    case _ => Draining
  }

  function Overstaying(o: Waits, m: Main): Waits {
    match m
    case AwaitingScheduler => o.(scheduler := true)
    case AwaitingRetention => o.(retention := true)
    case _ => o.(watcher := true)
  }

  function Next(s: Server, m: Move): Server
    requires Enabled(s, m)
  {
    match m
    case Scheduler(e) => WithEvent(s, e)
    case Signal => WithEvent(s, Happening.Cancel)
    case Sweep(t) => WithEvent(s, Prune(t))
    case SweepingEnds => s.(sweeping := false)
    case Reload(ms) => WithEvent(s, Sync(ms))
    case WatchingEnds => s.(watching := false)
    case Tells(w) => s.(queue := Queue.Next(s.queue, Queue.CallNotify(w, Alert(s.daemon, w).value)))
    case InQueue(l) => s.(queue := Queue.Next(s.queue, l))
    case TellingEnds(w) =>
      WithEvent(s, BatchStep(Batch.StageDone(w))).(queue := Queue.Next(s.queue, Queue.Leave(w)))
    case BeginShutdown => s.(main := AwaitingScheduler)
    case WaitSucceeds => s.(main := Following(s.main))
    case WaitTimesOut => s.(main := Following(s.main), overstayed := Overstaying(s.overstayed, s.main))
    case DrainReturns => s.(main := ClosingStore)
    case CloseStore => s.(main := Done)
  }

  function Run(s: Server, ms: seq<Move>): Option<Server> {
    if ms == [] then Some(s)
    else
      match Run(s, ms[..|ms| - 1])
      case None => None
      case Some(m) => if Enabled(m, ms[|ms| - 1]) then Some(Next(m, ms[|ms| - 1])) else None
  }

  // ---------- ordering of the shutdown ----------

  /** Somebody left behind may still write: the sweep, the watcher, or a probe of a nonempty pool. */
  predicate WriterLeft(o: Waits, pool: nat) {
    o.retention || o.watcher || (o.scheduler && pool > 0)
  }

  /** A phase of `run` is entered only after the writer it waits for is gone, unless that very wait
      gave up; and the queue is closed only from the drain phase on. */
  ghost predicate Ordered(s: Server) {
    && |s.queue.closers| == 1
    && (Rank(s.main) < Rank(Draining) ==> s.queue.closers[0].Calm?)
    && (s.queue.closers[0].Calm? ==> !s.queue.closed)
    && (Rank(s.main) > Rank(AwaitingScheduler) && !s.overstayed.scheduler ==> s.daemon.phase.Stopped?)
    && (Rank(s.main) > Rank(AwaitingRetention) && !s.overstayed.retention ==> !s.sweeping)
    && (Rank(s.main) > Rank(AwaitingWatcher) && !s.overstayed.watcher ==> !s.watching)
    && (s.lateWrite ==> WriterLeft(s.overstayed, s.daemon.pool))
    && (s.main.ClosingStore? || s.main.Done? ==> s.queue.closers[0].Returned?)
  }

  lemma QueueStepOrdered(s: Server, l: Queue.Label)
    requires Ordered(s) && Enabled(s, InQueue(l))
    ensures Ordered(Next(s, InQueue(l)))
  {
  }

  lemma SchedulerOrdered(s: Server, m: Move)
    requires Ordered(s) && Enabled(s, m) && (m.Scheduler? || m.TellingEnds? || m.Tells?)
    requires s.daemon.phase.InBatch? ==> |s.daemon.phase.batch.workers| == s.daemon.pool
    ensures Ordered(Next(s, m))
  {
    hide Interleaving.Effect, Alert;
  }

  lemma RunOrdered(s: Server, m: Move)
    requires Ordered(s) && Enabled(s, m) && !m.Scheduler? && !m.TellingEnds? && !m.Tells? && !m.InQueue?
    ensures Ordered(Next(s, m))
  {
    hide Alert, Queue.Enabled;
  }

  lemma OrderedKept(s: Server, m: Move)
    requires Ordered(s) && Enabled(s, m)
    requires s.daemon.phase.InBatch? ==> |s.daemon.phase.batch.workers| == s.daemon.pool
    ensures Ordered(Next(s, m))
  {
    hide Ordered;
    match m
    case InQueue(l) => QueueStepOrdered(s, l);
    case Scheduler(e) => SchedulerOrdered(s, m);
    case TellingEnds(w) => SchedulerOrdered(s, m);
    case Tells(w) => SchedulerOrdered(s, m);
    case _ => RunOrdered(s, m);
  }

  // ---------- workers and their calls ----------

  predicate Carries(p: Queue.Producer, e: Event) {
    match p
    case Wanting(f) => f == e
    case Entered(f) => f == e
    case SawOpen(f) => f == e
    case _ => true
  }

  /** A worker is inside `Notify` only while its probe is telling exactly that alert. */
  ghost predicate Linked(s: Server) {
    && BatchSound(s.daemon) && Filed(s.daemon.world)
    && |s.queue.producers| == s.daemon.pool
    && (s.daemon.phase.InBatch? ==> |s.daemon.phase.batch.workers| == s.daemon.pool)
    && (forall w :: 0 <= w < |s.queue.producers| && !s.queue.producers[w].Idle? ==>
      Alert(s.daemon, w).Some? && Carries(s.queue.producers[w], Alert(s.daemon, w).value))
  }

  lemma PoolSized(s: Server)
    requires Linked(s)
    ensures s.daemon.phase.InBatch? ==> |s.daemon.phase.batch.workers| == s.daemon.pool
  {
  }

  /** Two alerts at once belong to two jobs of differently named monitors. */
  lemma WorkersDiffer(d: Daemon, v: nat, w: nat)
    requires BatchSound(d) && d.phase.InBatch? && v != w
    requires v < |d.phase.batch.workers| && d.phase.batch.workers[v].Busy?
    requires w < |d.phase.batch.workers| && d.phase.batch.workers[w].Busy?
    ensures var i, j := d.phase.batch.workers[v].job, d.phase.batch.workers[w].job;
            && i != j && i < |d.phase.batch.progress| && j < |d.phase.batch.progress|
            && |d.phase.names| == |d.phase.batch.progress| && d.phase.names[i] != d.phase.names[j]
  {
    hide Batch.PhaseInv;
  }

  lemma StageSparesAlert(d: Daemon, v: nat, w: nat)
    requires BatchSound(d) && CanHappen(d, BatchStep(Batch.StageDone(v))) && v != w && Alert(d, w).Some?
    ensures Alert(Happen(d, BatchStep(Batch.StageDone(v))), w) == Alert(d, w)
  {
    hide Batch.PhaseInv, Batch.JobInv, DoStage;
    WorkersDiffer(d, v, w);
    var b := d.phase.batch;
    var p, q := b.progress[b.workers[v].job], b.progress[b.workers[w].job];
    PendingElsewhere(d.world, p.stage, p.result, q.result.monitorName);
  }

  lemma StepSparesAlert(d: Daemon, l: Batch.Label, w: nat)
    requires BatchSound(d) && CanHappen(d, BatchStep(l)) && !l.StageDone? && l != Batch.Return && Alert(d, w).Some?
    ensures Alert(Happen(d, BatchStep(l)), w) == Alert(d, w)
  {
    hide Sum, Batch.ClosedBetween;
    if l.ProbeReturns? && l.w != w {
      WorkersDiffer(d, l.w, w);
    }
  }

  lemma NoAlertAtReturn(d: Daemon, w: nat)
    requires BatchSound(d) && CanHappen(d, BatchStep(Batch.Return))
    ensures Alert(d, w).None?
  {
    Batch.InvKept(d.phase.batch, Batch.Return);
    hide Batch.JobInv;
    assert forall v :: 0 <= v < |d.phase.batch.workers| ==> d.phase.batch.workers[v].Stopped?;
  }

  /** Every alert some worker has, it still has after another worker's step. */
  lemma AlertsStay(d: Daemon, l: Batch.Label, w: nat)
    requires BatchSound(d) && CanHappen(d, BatchStep(l)) && Alert(d, w).Some?
    requires l.StageDone? ==> l.w != w
    ensures Alert(Happen(d, BatchStep(l)), w) == Alert(d, w)
  {
    hide BatchSound, Alert, Happen, CanHappen;
    if l.StageDone? {
      StageSparesAlert(d, l.w, w);
    } else if l.Return? {
      NoAlertAtReturn(d, w);
    } else {
      StepSparesAlert(d, l, w);
    }
  }

  lemma PendingElsewhere(w: World, stage: Batch.Stage, r: Result, n: string)
    requires n != r.monitorName
    ensures (n in DoStage(w, stage, r).pending <==> n in w.pending)
    ensures n in w.pending ==> DoStage(w, stage, r).pending[n] == w.pending[n]
  {
  }

  lemma SchedulerKeepsLinks(s: Server, l: Batch.Label)
    requires Linked(s) && Enabled(s, Scheduler(BatchStep(l)))
    ensures Linked(Next(s, Scheduler(BatchStep(l))))
  {
    var t := Next(s, Scheduler(BatchStep(l)));
    BatchLinks(s.daemon, l);
    forall w | 0 <= w < |t.queue.producers| && !t.queue.producers[w].Idle?
      ensures Alert(t.daemon, w).Some? && Carries(t.queue.producers[w], Alert(t.daemon, w).value)
    {
      AlertsStay(s.daemon, l, w);
    }
  }

  lemma BatchLinks(d: Daemon, l: Batch.Label)
    requires BatchSound(d) && CanHappen(d, BatchStep(l)) && Filed(d.world)
    ensures var e := Happen(d, BatchStep(l));
            && BatchSound(e) && Filed(e.world) && e.pool == d.pool
            && (e.phase.InBatch? ==> |e.phase.batch.workers| == |d.phase.batch.workers|)
  {
    BatchStepSound(d, l);
    if l.StageDone? {
      var p := d.phase.batch.progress[d.phase.batch.workers[l.w].job];
      StageKeepsFiled(d.world, p.stage, p.result);
    }
  }

  lemma TellingEndKeepsLinks(s: Server, v: nat)
    requires Linked(s) && Enabled(s, TellingEnds(v))
    ensures Linked(Next(s, TellingEnds(v)))
  {
    var t := Next(s, TellingEnds(v));
    BatchLinks(s.daemon, Batch.StageDone(v));
    forall w | 0 <= w < |t.queue.producers| && !t.queue.producers[w].Idle?
      ensures Alert(t.daemon, w).Some? && Carries(t.queue.producers[w], Alert(t.daemon, w).value)
    {
      AlertsStay(s.daemon, Batch.StageDone(v), w);
    }
  }

  lemma QueueKeepsLinks(s: Server, l: Queue.Label)
    requires Linked(s) && Enabled(s, InQueue(l))
    ensures Linked(Next(s, InQueue(l)))
  {
    hide Alert, BatchSound, Filed;
    var t := Next(s, InQueue(l));
    assert t.daemon == s.daemon;
  }

  lemma SignalKeepsLinks(s: Server)
    requires Linked(s) && Enabled(s, Signal)
    ensures Linked(Next(s, Signal))
  {
    EventSound(s.daemon, Happening.Cancel);
  }

  lemma SpawnKeepsLinks(s: Server, e: Happening)
    requires Linked(s) && Enabled(s, Scheduler(e)) && !e.BatchStep?
    ensures Linked(Next(s, Scheduler(e)))
  {
    EventSound(s.daemon, e);
  }

  lemma OtherMoveKeepsLinks(s: Server, m: Move)
    requires Linked(s) && Enabled(s, m)
    requires !m.Scheduler? && !m.Signal? && !m.InQueue? && !m.TellingEnds?
    ensures Linked(Next(s, m))
  {
    hide Queue.Enabled;
  }

  lemma LinkedKept(s: Server, m: Move)
    requires Linked(s) && Enabled(s, m)
    ensures Linked(Next(s, m))
  {
    hide Linked;
    match m
    case Scheduler(e) =>
      if e.BatchStep? {
        SchedulerKeepsLinks(s, e.step);
      } else {
        SpawnKeepsLinks(s, e);
      }
    case Signal => SignalKeepsLinks(s);
    case InQueue(l) => QueueKeepsLinks(s, l);
    case TellingEnds(w) => TellingEndKeepsLinks(s, w);
    case _ => OtherMoveKeepsLinks(s, m);
  }

  // ---------- every alert is offered to the queue, once and in order ----------

  function Offered(calls: seq<Queue.Call>): seq<Event> {
    Map((c: Queue.Call) => c.event, calls)
  }

  function Told(s: Server, n: string): seq<Event> {
    Filter(Offered(s.queue.calls), About(n))
  }

  function Raised(s: Server, n: string): seq<Event> {
    Filter(s.daemon.world.alerts, About(n))
  }

  /** Worker `w` has offered an alert of `n` and is about to return from `Notify`. */
  ghost predicate LeavesFor(s: Server, w: nat, n: string) {
    && w < |s.queue.producers| && s.queue.producers[w].Leaving?
    && Alert(s.daemon, w).Some? && Alert(s.daemon, w).value.monitor == n
  }

  /** What the queue was offered about `n` is what the probes raised about `n`, but for the one
      alert whose call is just returning. */
  ghost predicate Booked(s: Server, n: string) {
    && (forall w :: LeavesFor(s, w, n) ==> Told(s, n) == Raised(s, n) + [Alert(s.daemon, w).value])
    && ((forall w :: !LeavesFor(s, w, n)) ==> Told(s, n) == Raised(s, n))
  }

  lemma AlertsOfDifferentMonitors(d: Daemon, v: nat, w: nat)
    requires BatchSound(d) && Filed(d.world) && Alert(d, v).Some? && Alert(d, w).Some? && v != w
    ensures Alert(d, v).value.monitor != Alert(d, w).value.monitor
  {
    var b := d.phase.batch;
    var i, j := b.workers[v].job, b.workers[w].job;
    assert i != j;
    assert d.phase.names[i] != d.phase.names[j];
  }

  /** Nothing offered, nothing raised, nobody newly leaving: the books are unchanged. */
  lemma BooksUnchanged(s: Server, t: Server, n: string)
    requires Booked(s, n) && t.queue.calls == s.queue.calls && t.daemon.world.alerts == s.daemon.world.alerts
    requires forall w :: LeavesFor(s, w, n) <==> LeavesFor(t, w, n)
    requires forall w :: LeavesFor(s, w, n) ==> Alert(s.daemon, w) == Alert(t.daemon, w)
    ensures Booked(t, n)
  {
  }

  lemma OfferedAppend(calls: seq<Queue.Call>, c: Queue.Call, n: string)
    ensures Filter(Offered(calls + [c]), About(n))
      == Filter(Offered(calls), About(n)) + (if c.event.monitor == n then [c.event] else [])
  {
    assert Offered(calls + [c]) == Offered(calls) + [c.event];
    FilterAppend(Offered(calls), c.event, About(n));
  }

  /** Only a producer inside its call decides it, for the event it carries. */
  lemma DecisionOf(q: Queue.AsyncState, l: Queue.Label)
    requires Queue.Enabled(q, l) && Queue.Next(q, l).calls != q.calls
    ensures var r := Queue.Next(q, l);
            && Queue.ProducerLabel(l) && l.p < |q.producers|
            && (q.producers[l.p].Entered? || q.producers[l.p].SawOpen?)
            && r.producers == q.producers[l.p := Queue.Leaving]
            && |r.calls| == |q.calls| + 1 && r.calls == q.calls + [r.calls[|q.calls|]]
            && r.calls[|q.calls|].event == q.producers[l.p].event
  {
  }

  lemma DecisionFacts(s: Server, l: Queue.Label)
    requires Linked(s) && Enabled(s, InQueue(l)) && Next(s, InQueue(l)).queue.calls != s.queue.calls
    ensures var t := Next(s, InQueue(l));
            && Queue.ProducerLabel(l) && l.p < |s.queue.producers| && t.daemon == s.daemon
            && !s.queue.producers[l.p].Leaving? && t.queue.producers == s.queue.producers[l.p := Queue.Leaving]
            && Alert(s.daemon, l.p).Some? && |t.queue.calls| == |s.queue.calls| + 1
            && t.queue.calls == s.queue.calls + [t.queue.calls[|s.queue.calls|]]
            && t.queue.calls[|s.queue.calls|].event == Alert(s.daemon, l.p).value
  {
    hide Alert, BatchSound, Filed, Queue.Next, Queue.Enabled;
    DecisionOf(s.queue, l);
    assert Carries(s.queue.producers[l.p], Alert(s.daemon, l.p).value);
  }

  /** A call is decided: its alert is now offered. */
  lemma DecisionBooked(s: Server, l: Queue.Label, n: string)
    requires Linked(s) && Enabled(s, InQueue(l)) && Booked(s, n)
    requires Next(s, InQueue(l)).queue.calls != s.queue.calls
    ensures Booked(Next(s, InQueue(l)), n)
  {
    hide Alert, Next, Enabled, BatchSound, Filed, Raised;
    var t := Next(s, InQueue(l));
    DecisionFacts(s, l);
    var p, c := l.p, t.queue.calls[|s.queue.calls|];
    OfferedAppend(s.queue.calls, c, n);
    assert Raised(t, n) == Raised(s, n) by {
      RaisedSame(s, t, n);
    }
    forall w | 0 <= w < |s.queue.producers| && w != p && Alert(s.daemon, w).Some?
      ensures Alert(s.daemon, w).value.monitor != c.event.monitor
    {
      AlertsOfDifferentMonitors(s.daemon, w, p);
    }
    if c.event.monitor == n {
      assert forall w :: !LeavesFor(s, w, n);
      assert forall w :: LeavesFor(t, w, n) ==> w == p;
      assert LeavesFor(t, p, n);
    } else {
      assert forall w :: LeavesFor(s, w, n) <==> LeavesFor(t, w, n);
    }
  }

  lemma RaisedSame(s: Server, t: Server, n: string)
    requires s.daemon.world.alerts == t.daemon.world.alerts
    ensures Raised(s, n) == Raised(t, n)
  {
  }

  lemma FreeStepOf(s: Server, l: Queue.Label)
    requires Enabled(s, InQueue(l))
    ensures FreeStep(s, l) && Queue.Enabled(s.queue, l)
  {
  }

  /** Whoever starts or stops leaving either decides its call or returns from it. */
  lemma LeavingKept(q: Queue.AsyncState, l: Queue.Label)
    requires Queue.Enabled(q, l) && !l.Leave? && Queue.Next(q, l).calls == q.calls
    ensures |Queue.Next(q, l).producers| == |q.producers|
    ensures forall w :: 0 <= w < |q.producers| ==> (Queue.Next(q, l).producers[w].Leaving? <==> q.producers[w].Leaving?)
  {
  }

  lemma QueueBooked(s: Server, l: Queue.Label, n: string)
    requires Linked(s) && Enabled(s, InQueue(l)) && Booked(s, n)
    ensures Booked(Next(s, InQueue(l)), n)
  {
    hide Alert, Told, Raised, Filed, BatchSound, Booked, Queue.Next, Queue.Enabled, Enabled, Linked;
    var t := Next(s, InQueue(l));
    if t.queue.calls != s.queue.calls {
      DecisionBooked(s, l, n);
    } else {
      assert Queue.Enabled(s.queue, l) && FreeStep(s, l) by {
        hide Linked, Queue.Enabled, FreeStep;
        FreeStepOf(s, l);
      }
      LeavingKept(s.queue, l);
      hide Next;
      BooksUnchanged(s, t, n);
    }
  }

  /** What finishing a stage adds to the alerts handed over. */
  lemma StageAlerts(w: World, stage: Batch.Stage, r: Result)
    ensures DoStage(w, stage, r).alerts ==
      if (stage.TellingState? || stage.TellingCert? || stage.TellingFlap?) && r.monitorName in w.pending
      then w.alerts + [w.pending[r.monitorName]] else w.alerts
  {
  }

  lemma SchedulerBooked(s: Server, l: Batch.Label, n: string)
    requires Linked(s) && Enabled(s, Scheduler(BatchStep(l))) && Booked(s, n)
    ensures Booked(Next(s, Scheduler(BatchStep(l))), n)
  {
    var t := Next(s, Scheduler(BatchStep(l)));
    if l.StageDone? {
      var p := s.daemon.phase.batch.progress[s.daemon.phase.batch.workers[l.w].job];
      StageAlerts(s.daemon.world, p.stage, p.result);
    }
    assert t.daemon.world.alerts == s.daemon.world.alerts;
    forall w | 0 <= w < |s.queue.producers| && !s.queue.producers[w].Idle?
      ensures Alert(s.daemon, w).Some? && Alert(t.daemon, w) == Alert(s.daemon, w)
    {
      AlertsStay(s.daemon, l, w);
    }
    hide Alert, Told, Raised, Happen, CanHappen;
    assert t.queue == s.queue;
    BooksUnchanged(s, t, n);
  }

  lemma TellingEndFacts(s: Server, v: nat)
    requires Linked(s) && Enabled(s, TellingEnds(v))
    ensures var t := Next(s, TellingEnds(v));
            && v < |s.queue.producers| && s.queue.producers[v].Leaving?
            && Alert(s.daemon, v).Some?
            && t.queue.producers == s.queue.producers[v := Queue.Idle] && t.queue.calls == s.queue.calls
            && t.daemon.world.alerts == s.daemon.world.alerts + [Alert(s.daemon, v).value]
  {
    hide BatchSound, Filed;
    var p := s.daemon.phase.batch.progress[s.daemon.phase.batch.workers[v].job];
    StageAlerts(s.daemon.world, p.stage, p.result);
  }

  /** A call returns: its alert now counts as raised. */
  lemma TellingEndBooked(s: Server, v: nat, n: string)
    requires Linked(s) && Enabled(s, TellingEnds(v)) && Booked(s, n)
    ensures Booked(Next(s, TellingEnds(v)), n)
  {
    hide Alert, Next, BatchSound, Filed, Told;
    var t, e := Next(s, TellingEnds(v)), Alert(s.daemon, v).value;
    TellingEndFacts(s, v);
    FilterAppend(s.daemon.world.alerts, e, About(n));
    assert Told(t, n) == Told(s, n) by {
      ToldSame(s, t, n);
    }
    forall w | 0 <= w < |s.queue.producers| && w != v && !s.queue.producers[w].Idle?
      ensures Alert(s.daemon, w).Some? && Alert(t.daemon, w) == Alert(s.daemon, w)
      ensures Alert(s.daemon, w).value.monitor != e.monitor
    {
      OtherAlertStays(s, v, w);
      AlertsOfDifferentMonitors(s.daemon, w, v);
    }
    hide Enabled, Happen, CanHappen;
    if e.monitor == n {
      assert LeavesFor(s, v, n);
      assert forall w :: !LeavesFor(t, w, n);
    } else {
      assert forall w :: LeavesFor(s, w, n) <==> LeavesFor(t, w, n);
    }
  }

  lemma OtherAlertStays(s: Server, v: nat, w: nat)
    requires Linked(s) && Enabled(s, TellingEnds(v)) && w != v && Alert(s.daemon, w).Some?
    ensures Alert(Next(s, TellingEnds(v)).daemon, w) == Alert(s.daemon, w)
  {
    hide Alert, BatchSound, Filed;
    AlertsStay(s.daemon, Batch.StageDone(v), w);
  }

  lemma ToldSame(s: Server, t: Server, n: string)
    requires s.queue.calls == t.queue.calls
    ensures Told(s, n) == Told(t, n)
  {
  }

  lemma CallFacts(q: Queue.AsyncState, w: nat, e: Event)
    requires Queue.Enabled(q, Queue.CallNotify(w, e))
    ensures var r := Queue.Next(q, Queue.CallNotify(w, e));
            && r.calls == q.calls && |r.producers| == |q.producers|
            && forall v :: 0 <= v < |q.producers| ==> (r.producers[v].Leaving? <==> q.producers[v].Leaving?)
  {
  }

  lemma QuietFacts(s: Server, m: Move)
    requires Enabled(s, m)
    requires !m.InQueue? && !m.TellingEnds? && (m.Scheduler? ==> !m.event.BatchStep?)
    ensures var t := Next(s, m);
            && t.queue.calls == s.queue.calls && t.daemon.world.alerts == s.daemon.world.alerts
            && |t.queue.producers| == |s.queue.producers|
            && forall w :: 0 <= w < |s.queue.producers| ==>
              (t.queue.producers[w].Leaving? <==> s.queue.producers[w].Leaving?)
  {
    hide Alert, Queue.Enabled;
    if m.Tells? {
      CallFacts(s.queue, m.w, Alert(s.daemon, m.w).value);
    }
  }

  lemma QuietSparesAlert(s: Server, m: Move, w: nat)
    requires Enabled(s, m) && Alert(s.daemon, w).Some?
    requires !m.InQueue? && !m.TellingEnds? && (m.Scheduler? ==> !m.event.BatchStep?)
    ensures Alert(Next(s, m).daemon, w) == Alert(s.daemon, w)
  {
  }

  lemma QuietBooked(s: Server, m: Move, n: string)
    requires Linked(s) && Enabled(s, m) && Booked(s, n)
    requires !m.InQueue? && !m.TellingEnds? && (m.Scheduler? ==> !m.event.BatchStep?)
    ensures Booked(Next(s, m), n)
  {
    hide Told, Raised, BatchSound, Filed, Booked, Next, Enabled, Happen, CanHappen, Alert;
    var t := Next(s, m);
    QuietFacts(s, m);
    forall w | 0 <= w < |s.queue.producers| && s.queue.producers[w].Leaving?
      ensures Alert(t.daemon, w) == Alert(s.daemon, w)
    {
      assert Alert(s.daemon, w).Some?;
      QuietSparesAlert(s, m, w);
    }
    BooksUnchanged(s, t, n);
  }

  lemma BookedKept(s: Server, m: Move, n: string)
    requires Linked(s) && Enabled(s, m) && Booked(s, n)
    ensures Booked(Next(s, m), n)
  {
    hide Booked, Linked;
    if m.Scheduler? && m.event.BatchStep? {
      SchedulerBooked(s, m.event.step, n);
    } else if m.InQueue? {
      QueueBooked(s, m.step, n);
    } else if m.TellingEnds? {
      TellingEndBooked(s, m.w, n);
    } else {
      QuietBooked(s, m, n);
    }
  }

  // ---------- no alert is turned away as closed ----------

  /** Unless the scheduler was left behind with a worker to probe. */
  ghost predicate NoneRefused(s: Server) {
    (s.overstayed.scheduler && s.daemon.pool > 0)
    || (forall i :: 0 <= i < |s.queue.calls| ==> s.queue.calls[i].outcome != Queue.Closed)
  }

  /** A worker still inside `Notify` means the scheduler has not stopped, so the queue is open. */
  lemma OpenWhileTelling(s: Server, p: nat)
    requires Ordered(s) && Linked(s) && !s.overstayed.scheduler
    requires p < |s.queue.producers| && !s.queue.producers[p].Idle?
    ensures !s.queue.closed
  {
    hide BatchSound, Filed;
    assert Alert(s.daemon, p).Some?;
    assert s.daemon.phase.InBatch?;
  }

  lemma StepRefusesOnlyIfClosed(q: Queue.AsyncState, l: Queue.Label)
    requires Queue.Enabled(q, l)
    ensures var r := Queue.Next(q, l);
            r.calls == q.calls
            || (Queue.ProducerLabel(l) && l.p < |q.producers| && !q.producers[l.p].Idle?
              && exists c :: r.calls == q.calls + [c] && (c.outcome == Queue.Closed ==> q.closed))
  {
    var r := Queue.Next(q, l);
    if r.calls != q.calls {
      var c := r.calls[|q.calls|];
      assert r.calls == q.calls + [c];
    }
  }

  lemma NoneRefusedKept(s: Server, m: Move)
    requires NoneRefused(s) && Ordered(s) && Linked(s) && Enabled(s, m)
    ensures NoneRefused(Next(s, m))
  {
    if m.InQueue? {
      StepRefusesOnlyIfClosed(s.queue, m.step);
      var t := Next(s, m);
      hide Queue.Next, Queue.Enabled, Linked, Ordered;
      if t.queue.calls != s.queue.calls && !s.overstayed.scheduler {
        OpenWhileTelling(s, m.step.p);
      }
    } else {
      hide Linked, Ordered, Happen, CanHappen;
      assert Next(s, m).queue.calls == s.queue.calls;
    }
  }

  lemma QueueInvKept(s: Server, m: Move)
    requires Queue.Inv(s.queue) && Enabled(s, m)
    ensures Queue.Inv(Next(s, m).queue) && |Next(s, m).queue.children| == |s.queue.children|
  {
    hide Queue.Inv, Queue.Next, Happen, CanHappen, Alert;
    var l := match m
      case Tells(w) => Queue.CallNotify(w, Alert(s.daemon, w).value)
      case InQueue(l) => l
      case TellingEnds(w) => Queue.Leave(w)
      case _ => Queue.Receive;
    if m.Tells? || m.InQueue? || m.TellingEnds? {
      QueueStepKeepsInv(s.queue, l);
    }
  }

  lemma QueueStepKeepsInv(q: Queue.AsyncState, l: Queue.Label)
    requires Queue.Inv(q) && Queue.Enabled(q, l)
    ensures Queue.Inv(Queue.Next(q, l)) && |Queue.Next(q, l).children| == |q.children|
  {
    Queue.LockInvKept(q, l);
    Queue.DataInvKept(q, l);
    Queue.StepKeepsShape(q, l);
  }

  // ---------- end to end ----------

  ghost predicate Sound(s: Server, pool: nat, n: string, children: nat) {
    && s.daemon.pool == pool
    && Queue.Inv(s.queue) && |s.queue.children| == children
    && Ordered(s) && Linked(s) && NoneRefused(s) && Booked(s, n)
  }

  lemma PoolKept(s: Server, m: Move)
    requires Enabled(s, m)
    ensures Next(s, m).daemon.pool == s.daemon.pool
  {
    hide Alert, Queue.Enabled;
  }

  lemma BootLinked(pool: nat, now: Time, capacity: nat, children: nat, n: string)
    ensures var s := Boot(pool, now, capacity, children);
            Linked(s) && s.queue.calls == [] && s.daemon.world.alerts == []
            && forall w :: 0 <= w < |s.queue.producers| ==> s.queue.producers[w].Idle?
  {
    hide Alert, Carries;
  }

  lemma BootBooked(pool: nat, now: Time, capacity: nat, children: nat, n: string)
    ensures Booked(Boot(pool, now, capacity, children), n)
  {
    var s := Boot(pool, now, capacity, children);
    BootLinked(pool, now, capacity, children, n);
    hide Boot, Linked, Alert, About;
    assert forall w :: !LeavesFor(s, w, n);
  }

  lemma BootOrdered(pool: nat, now: Time, capacity: nat, children: nat)
    ensures Ordered(Boot(pool, now, capacity, children)) && NoneRefused(Boot(pool, now, capacity, children))
    ensures Queue.Inv(Boot(pool, now, capacity, children).queue)
    ensures |Boot(pool, now, capacity, children).queue.children| == children
    ensures Boot(pool, now, capacity, children).daemon.pool == pool
  {
    hide Queue.Inv;
    Queue.InitialInv(capacity, pool, 1, children);
  }

  lemma BootSound(pool: nat, now: Time, capacity: nat, children: nat, n: string)
    ensures Sound(Boot(pool, now, capacity, children), pool, n, children)
  {
    hide Boot, Linked, Booked, Ordered, NoneRefused, Queue.Inv;
    BootOrdered(pool, now, capacity, children);
    BootLinked(pool, now, capacity, children, n);
    BootBooked(pool, now, capacity, children, n);
  }

  lemma {:induction false} RunSound(pool: nat, now: Time, capacity: nat, children: nat, ms: seq<Move>, n: string)
    requires Run(Boot(pool, now, capacity, children), ms).Some?
    ensures Sound(Run(Boot(pool, now, capacity, children), ms).value, pool, n, children)
  {
    if ms == [] {
      BootSound(pool, now, capacity, children, n);
    } else {
      hide Queue.Inv, Ordered, Linked, NoneRefused, Booked, Boot, Next, Enabled;
      var s := Boot(pool, now, capacity, children);
      var last := |ms| - 1;
      RunSound(pool, now, capacity, children, ms[..last], n);
      var t := Run(s, ms[..last]).value;
      QueueInvKept(t, ms[last]);
      PoolKept(t, ms[last]);
      PoolSized(t);
      OrderedKept(t, ms[last]);
      LinkedKept(t, ms[last]);
      NoneRefusedKept(t, ms[last]);
      BookedKept(t, ms[last], n);
    }
  }

  /** Shutdown end to end, over every interleaving of probes, alerts, reloads, sweeps and the signal.
      The store is written after its close only if a writer was left behind that could still write,
      and an alert is refused as closed only if the scheduler was, with a worker in its pool. A drain
      that finished before its deadline means that every child has received, in order, exactly the
      alerts offered minus those refused; and of every monitor exactly the alerts its probes raised
      were offered, in the order they were raised, unless the scheduler was left behind. */
  lemma ShutdownEndToEnd(pool: nat, now: Time, capacity: nat, children: nat, ms: seq<Move>, n: string)
    requires Run(Boot(pool, now, capacity, children), ms).Some?
    ensures var t := Run(Boot(pool, now, capacity, children), ms).value;
            && !t.queue.panicked
            && (t.lateWrite ==> WriterLeft(t.overstayed, pool))
            && (Refusing(t) ==> t.overstayed.scheduler && pool > 0)
            && (t.queue.closers == [Queue.Returned(true)] ==>
              && |t.queue.children| == children
              && forall k :: 0 <= k < children ==> t.queue.children[k] == Queue.AcceptedEvents(t.queue.calls))
            && (StoreClosed(t) && !(t.overstayed.scheduler && pool > 0) ==>
              Filter(Offered(t.queue.calls), About(n)) == Filter(t.daemon.world.alerts, About(n)))
  {
    RunSound(pool, now, capacity, children, ms, n);
    hide BatchSound, Alert, Filed;
    var t := Run(Boot(pool, now, capacity, children), ms).value;
    if StoreClosed(t) && !(t.overstayed.scheduler && pool > 0) {
      forall w | 0 <= w < pool ensures !t.queue.producers[w].Leaving? {
        NoAlertOutsideBatches(t.daemon, w);
      }
      assert forall w :: !LeavesFor(t, w, n);
    }
  }

  lemma NoAlertOutsideBatches(d: Daemon, w: nat)
    ensures !d.phase.InBatch? ==> Alert(d, w).None?
  {
  }

  /** Some alert was refused because the queue was closed. */
  ghost predicate Refusing(s: Server) {
    exists i :: 0 <= i < |s.queue.calls| && s.queue.calls[i].outcome == Queue.Closed
  }
}
