/** One probe batch, `runOnce`, as a protocol: a dispatcher per monitor, a pool of workers, two wait
    groups and the close of the job channel, one atomic action at a time. */
module ProbeBatch {
  import opened Monitoring
  import opened Sequences

  /** The calling goroutine: starting workers, then dispatchers, then waiting for each in turn. */
  datatype Main = Starting(started: nat) | AwaitingWorkers | Returned

  datatype Dispatcher =
    | Unborn
    | Delayed
    | Sending
    | Leaving(sent: bool)
    | Gone(sent: bool)

  datatype Worker = Unstarted | Receiving | Busy(job: nat) | Finishing | Stopped

  /** Where in `probeOne` a job stands after its probe has returned: the stage still to be done. */
  datatype Stage = Saving | Debouncing | TellingState | CertChecking | TellingCert | FlapChecking | TellingFlap {
    predicate Final() {
      TellingFlap?
    }

    function Following(): Stage {
      match this
      case Saving => Debouncing
      case Debouncing => TellingState
      case TellingState => CertChecking
      case CertChecking => TellingCert
      case TellingCert => FlapChecking
      case FlapChecking => TellingFlap
      case TellingFlap => TellingFlap
    }

    function Left(): nat {
      match this
      case Saving => 7
      case Debouncing => 6
      case TellingState => 5
      case CertChecking => 4
      case TellingCert => 3
      case FlapChecking => 2
      case TellingFlap => 1
    }
  }

  datatype Progress =
    | NotStarted
    | Probing(worker: nat)
    | Running(worker: nat, stage: Stage, result: Result)
    | Finished(result: Result)

  datatype Batch = Batch(
    main: Main,
    cancelled: bool,
    closed: bool,
    panicked: bool,
    workerGroup: int,
    dispatchGroup: int,
    dispatchers: seq<Dispatcher>,
    workers: seq<Worker>,
    progress: seq<Progress>
  )

  function Initial(workers: nat, jobs: nat, cancelled: bool): Batch {
    Batch(Starting(0), cancelled, false, false, 0, 0, seq(jobs, _ => Unborn), seq(workers, _ => Unstarted),
          seq(jobs, _ => NotStarted))
  }

  datatype Label =
    | Start
    | Cancel
    | TimerFires(i: nat)
    | Abort(i: nat)
    | Rendezvous(i: nat, w: nat)
    | SendPanics(i: nat)
    | DispatcherDone(i: nat)
    | ProbeReturns(w: nat, result: Result)
    | StageDone(w: nat)
    | SeesClosed(w: nat)
    | WorkerDone(w: nat)
    | CloseJobs
    | Return

  predicate Enabled(s: Batch, l: Label) {
    match l
    case Start => s.main.Starting? && s.main.started < |s.workers| + |s.dispatchers|
    case Cancel => !s.cancelled
    case TimerFires(i) => i < |s.dispatchers| && s.dispatchers[i].Delayed?
    case Abort(i) => i < |s.dispatchers| && s.cancelled && (s.dispatchers[i].Delayed? || s.dispatchers[i].Sending?)
    case Rendezvous(i, w) =>
      && i < |s.dispatchers| && w < |s.workers| && i < |s.progress|
      && s.dispatchers[i].Sending? && s.workers[w].Receiving? && !s.closed
    case SendPanics(i) => i < |s.dispatchers| && s.dispatchers[i].Sending? && s.closed
    case DispatcherDone(i) => i < |s.dispatchers| && s.dispatchers[i].Leaving?
    case ProbeReturns(w, _) =>
      w < |s.workers| && s.workers[w].Busy? && s.workers[w].job < |s.progress| && s.progress[s.workers[w].job].Probing?
    case StageDone(w) =>
      w < |s.workers| && s.workers[w].Busy? && s.workers[w].job < |s.progress| && s.progress[s.workers[w].job].Running?
    case SeesClosed(w) => w < |s.workers| && s.workers[w].Receiving? && s.closed
    case WorkerDone(w) => w < |s.workers| && s.workers[w].Finishing?
    case CloseJobs => s.main == Starting(|s.workers| + |s.dispatchers|) && s.dispatchGroup == 0
    case Return => s.main.AwaitingWorkers? && s.workerGroup == 0
  }

  function Next(s: Batch, l: Label): Batch
    requires Enabled(s, l)
  {
    match l
    case Start =>
      var k := s.main.started;
      var t := s.(main := Starting(k + 1));
      if k < |s.workers| then t.(workers := s.workers[k := Receiving], workerGroup := s.workerGroup + 1)
      else t.(dispatchers := s.dispatchers[k - |s.workers| := Delayed], dispatchGroup := s.dispatchGroup + 1)
    case Cancel => s.(cancelled := true)
    case TimerFires(i) => s.(dispatchers := s.dispatchers[i := Sending])
    case Abort(i) => s.(dispatchers := s.dispatchers[i := Leaving(false)])
    case Rendezvous(i, w) =>
      s.(dispatchers := s.dispatchers[i := Leaving(true)], workers := s.workers[w := Busy(i)],
         progress := s.progress[i := Probing(w)])
    case SendPanics(i) => s.(panicked := true)
    case DispatcherDone(i) =>
      s.(dispatchers := s.dispatchers[i := Gone(s.dispatchers[i].sent)], dispatchGroup := s.dispatchGroup - 1,
         panicked := s.panicked || s.dispatchGroup <= 0)
    case ProbeReturns(w, r) =>
      s.(progress := s.progress[s.workers[w].job := Running(w, Saving, r)])
    case StageDone(w) =>
      var i := s.workers[w].job;
      var stage, r := s.progress[i].stage, s.progress[i].result;
      if stage.Final() then s.(progress := s.progress[i := Finished(r)], workers := s.workers[w := Receiving])
      else s.(progress := s.progress[i := Running(w, stage.Following(), r)])
    case SeesClosed(w) => s.(workers := s.workers[w := Finishing])
    case WorkerDone(w) =>
      s.(workers := s.workers[w := Stopped], workerGroup := s.workerGroup - 1,
         panicked := s.panicked || s.workerGroup <= 0)
    case CloseJobs => s.(main := AwaitingWorkers, closed := true, panicked := s.panicked || s.closed)
    case Return => s.(main := Returned)
  }

  /** The state after executing `ls` from `s`, if every action was enabled in its turn. */
  function Run(s: Batch, ls: seq<Label>): Option<Batch> {
    if ls == [] then Some(s)
    else
      match Run(s, ls[..|ls| - 1])
      case None => None
      case Some(m) => if Enabled(m, ls[|ls| - 1]) then Some(Next(m, ls[|ls| - 1])) else None
  }

  // ---------- what every step keeps ----------

  function LiveDispatcher(d: Dispatcher): nat {
    if d.Unborn? || d.Gone? then 0 else 1
  }

  function LiveWorker(w: Worker): nat {
    if w.Unstarted? || w.Stopped? then 0 else 1
  }

  predicate Sent(d: Dispatcher) {
    (d.Leaving? || d.Gone?) && d.sent
  }

  predicate Aborted(d: Dispatcher) {
    (d.Leaving? || d.Gone?) && !d.sent
  }

  predicate OnWorker(p: Progress, w: nat) {
    (p.Probing? || p.Running?) && p.worker == w
  }

  /** Goroutines are started in order, workers first. */
  ghost predicate InOrder(main: Main, workers: seq<Worker>, dispatchers: seq<Dispatcher>) {
    && (main.Starting? ==> main.started <= |workers| + |dispatchers|)
    && (forall w :: 0 <= w < |workers| ==> (workers[w].Unstarted? <==> main.Starting? && main.started <= w))
    && (forall i :: 0 <= i < |dispatchers| ==>
      (dispatchers[i].Unborn? <==> main.Starting? && main.started <= |workers| + i))
  }

  /** The channel is closed after the last dispatcher and before the first worker stops. */
  ghost predicate ClosedBetween(main: Main, closed: bool, workers: seq<Worker>, dispatchers: seq<Dispatcher>) {
    && (closed <==> !main.Starting?)
    && (closed ==> forall i :: 0 <= i < |dispatchers| ==> dispatchers[i].Gone?)
    && (forall w :: 0 <= w < |workers| && (workers[w].Finishing? || workers[w].Stopped?) ==> closed)
    && (main.Returned? ==> forall w :: 0 <= w < |workers| ==> workers[w].Stopped?)
  }

  /** The wait groups count the live goroutines, and the phases of the caller order them. */
  ghost predicate PhaseInv(s: Batch) {
    && !s.panicked
    && s.workerGroup == Sum(s.workers, LiveWorker)
    && s.dispatchGroup == Sum(s.dispatchers, LiveDispatcher)
    && InOrder(s.main, s.workers, s.dispatchers)
    && ClosedBetween(s.main, s.closed, s.workers, s.dispatchers)
  }

  /** A job is on a worker exactly while that worker is busy with it. */
  ghost predicate Matched(workers: seq<Worker>, progress: seq<Progress>) {
    && (forall i :: 0 <= i < |progress| && (progress[i].Probing? || progress[i].Running?) ==>
      progress[i].worker < |workers| && workers[progress[i].worker] == Busy(i))
    && (forall w :: 0 <= w < |workers| && workers[w].Busy? ==>
      workers[w].job < |progress| && OnWorker(progress[workers[w].job], w))
  }

  /** A job is started exactly when it has been handed over. */
  ghost predicate StartedWhenSent(progress: seq<Progress>, dispatchers: seq<Dispatcher>) {
    && |progress| == |dispatchers|
    && forall i :: 0 <= i < |progress| ==> (progress[i].NotStarted? <==> !Sent(dispatchers[i]))
  }

  ghost predicate AbortedOnCancel(dispatchers: seq<Dispatcher>, cancelled: bool) {
    forall i :: 0 <= i < |dispatchers| && Aborted(dispatchers[i]) ==> cancelled
  }

  ghost predicate JobInv(s: Batch) {
    && Matched(s.workers, s.progress)
    && StartedWhenSent(s.progress, s.dispatchers)
    && AbortedOnCancel(s.dispatchers, s.cancelled)
  }

  ghost predicate Inv(s: Batch) {
    PhaseInv(s) && JobInv(s)
  }

  lemma InitialInv(workers: nat, jobs: nat, cancelled: bool)
    ensures Inv(Initial(workers, jobs, cancelled))
  {
    var s := Initial(workers, jobs, cancelled);
    SumZero(s.workers, LiveWorker);
    SumZero(s.dispatchers, LiveDispatcher);
  }

  predicate DispatcherLabel(l: Label) {
    l.TimerFires? || l.Abort? || l.SendPanics? || l.DispatcherDone?
  }

  predicate WorkerLabel(l: Label) {
    l.ProbeReturns? || l.StageDone? || l.SeesClosed? || l.WorkerDone?
  }

  lemma DispatcherKeepsPhases(s: Batch, l: Label)
    requires PhaseInv(s) && Enabled(s, l) && DispatcherLabel(l)
    ensures PhaseInv(Next(s, l))
  {
    hide Sum;
    SumUpdate(s.dispatchers, l.i, Next(s, l).dispatchers[l.i], LiveDispatcher);
    if l.DispatcherDone? {
      SumAtLeast(s.dispatchers, l.i, LiveDispatcher);
    }
  }

  lemma RendezvousKeepsPhases(s: Batch, i: nat, w: nat)
    requires PhaseInv(s) && Enabled(s, Rendezvous(i, w))
    ensures PhaseInv(Next(s, Rendezvous(i, w)))
  {
    hide Sum;
    SumUpdate(s.dispatchers, i, Leaving(true), LiveDispatcher);
    SumUpdate(s.workers, w, Busy(i), LiveWorker);
  }

  lemma WorkerKeepsPhases(s: Batch, l: Label)
    requires PhaseInv(s) && Enabled(s, l) && WorkerLabel(l)
    ensures PhaseInv(Next(s, l))
  {
    hide Sum;
    var t := Next(s, l);
    SumAtLeast(s.workers, l.w, LiveWorker);
    SumUpdate(s.workers, l.w, t.workers[l.w], LiveWorker);
    assert t.workers == s.workers[l.w := t.workers[l.w]];
  }

  lemma StartKeepsPhases(s: Batch)
    requires PhaseInv(s) && Enabled(s, Start)
    ensures PhaseInv(Next(s, Start))
  {
    hide Sum;
    var k := s.main.started;
    if k < |s.workers| {
      SumUpdate(s.workers, k, Receiving, LiveWorker);
    } else {
      SumUpdate(s.dispatchers, k - |s.workers|, Delayed, LiveDispatcher);
    }
  }

  lemma MainKeepsPhases(s: Batch, l: Label)
    requires PhaseInv(s) && Enabled(s, l) && (l.CloseJobs? || l.Return? || l.Cancel?)
    ensures PhaseInv(Next(s, l))
  {
    if l.CloseJobs? {
      SumZero(s.dispatchers, LiveDispatcher);
      forall i | 0 <= i < |s.dispatchers| ensures s.dispatchers[i].Gone? {
        assert LiveDispatcher(s.dispatchers[i]) == 0;
      }
    }
    if l.Return? {
      SumZero(s.workers, LiveWorker);
      forall w | 0 <= w < |s.workers| ensures s.workers[w].Stopped? {
        assert LiveWorker(s.workers[w]) == 0;
      }
    }
  }

  lemma RendezvousKeepsJobs(s: Batch, i: nat, w: nat)
    requires JobInv(s) && Enabled(s, Rendezvous(i, w))
    ensures JobInv(Next(s, Rendezvous(i, w)))
  {
    assert s.progress[i].NotStarted?;
  }

  lemma MatchedUpdate(workers: seq<Worker>, progress: seq<Progress>, w: nat, i: nat, p: Progress)
    requires Matched(workers, progress) && w < |workers| && i < |progress| && workers[w] == Busy(i) && OnWorker(p, w)
    ensures Matched(workers, progress[i := p])
  {
  }

  lemma MatchedFinish(workers: seq<Worker>, progress: seq<Progress>, w: nat, i: nat, r: Result)
    requires Matched(workers, progress) && w < |workers| && i < |progress| && workers[w] == Busy(i)
    ensures Matched(workers[w := Receiving], progress[i := Finished(r)])
  {
  }

  lemma ProbeReturnKeepsJobs(s: Batch, w: nat, r: Result)
    requires JobInv(s) && Enabled(s, ProbeReturns(w, r))
    ensures JobInv(Next(s, ProbeReturns(w, r)))
  {
    hide Matched;
    MatchedUpdate(s.workers, s.progress, w, s.workers[w].job, Running(w, Saving, r));
  }

  lemma StageKeepsJobs(s: Batch, w: nat)
    requires JobInv(s) && Enabled(s, StageDone(w))
    ensures JobInv(Next(s, StageDone(w)))
  {
    hide Matched;
    var i := s.workers[w].job;
    var p := s.progress[i];
    if p.stage.Final() {
      MatchedFinish(s.workers, s.progress, w, i, p.result);
    } else {
      MatchedUpdate(s.workers, s.progress, w, i, Running(w, p.stage.Following(), p.result));
    }
  }

  lemma DispatcherKeepsJobs(s: Batch, l: Label)
    requires JobInv(s) && Enabled(s, l) && DispatcherLabel(l)
    ensures JobInv(Next(s, l))
  {
    hide Matched;
  }

  lemma StartKeepsJobs(s: Batch)
    requires PhaseInv(s) && JobInv(s) && Enabled(s, Start)
    ensures JobInv(Next(s, Start))
  {
    hide ClosedBetween, Sum;
  }

  lemma OthersKeepJobs(s: Batch, l: Label)
    requires JobInv(s) && Enabled(s, l)
    requires l.Cancel? || l.SeesClosed? || l.WorkerDone? || l.CloseJobs? || l.Return?
    ensures JobInv(Next(s, l))
  {
    hide StartedWhenSent;
  }

  lemma InvKept(s: Batch, l: Label)
    requires Inv(s) && Enabled(s, l)
    ensures Inv(Next(s, l))
  {
    hide PhaseInv, JobInv, Next, Enabled;
    if DispatcherLabel(l) {
      DispatcherKeepsPhases(s, l);
      DispatcherKeepsJobs(s, l);
    } else if l.Rendezvous? {
      RendezvousKeepsPhases(s, l.i, l.w);
      RendezvousKeepsJobs(s, l.i, l.w);
    } else if l.Start? {
      StartKeepsPhases(s);
      StartKeepsJobs(s);
    } else if WorkerLabel(l) {
      WorkerKeepsPhases(s, l);
      if l.ProbeReturns? {
        ProbeReturnKeepsJobs(s, l.w, l.result);
      } else if l.StageDone? {
        StageKeepsJobs(s, l.w);
      } else {
        OthersKeepJobs(s, l);
      }
    } else {
      MainKeepsPhases(s, l);
      OthersKeepJobs(s, l);
    }
  }

  lemma {:induction false} RunKeepsInv(s: Batch, ls: seq<Label>)
    requires Inv(s) && Run(s, ls).Some?
    ensures Inv(Run(s, ls).value)
  {
    if ls != [] {
      RunKeepsInv(s, ls[..|ls| - 1]);
      InvKept(Run(s, ls[..|ls| - 1]).value, ls[|ls| - 1]);
    }
  }

  // ---------- safety ----------

  function ActiveWeight(p: Progress): nat {
    if p.Probing? || p.Running? then 1 else 0
  }

  function BusyWeight(w: Worker): nat {
    if w.Busy? then 1 else 0
  }

  function HandoverOf(i: nat): Label -> bool {
    (l: Label) => l.Rendezvous? && l.i == i
  }

  /** How often job `i` was handed to a worker along a run. */
  function Handovers(ls: seq<Label>, i: nat): nat {
    |Filter(ls, HandoverOf(i))|
  }

  /** Probes under way and busy workers change together. */
  ghost predicate Balanced(s: Batch, t: Batch) {
    && |t.workers| == |s.workers| && |t.progress| == |s.progress| && |t.dispatchers| == |s.dispatchers|
    && Sum(t.progress, ActiveWeight) - Sum(s.progress, ActiveWeight)
      == Sum(t.workers, BusyWeight) - Sum(s.workers, BusyWeight)
  }

  lemma ProbeStepBalanced(s: Batch, l: Label)
    requires Inv(s) && Enabled(s, l) && (l.ProbeReturns? || l.StageDone?)
    ensures Balanced(s, Next(s, l))
  {
    hide Sum, PhaseInv, JobInv;
    var i, t := s.workers[l.w].job, Next(s, l);
    SumUpdate(s.progress, i, t.progress[i], ActiveWeight);
    SumUpdate(s.workers, l.w, t.workers[l.w], BusyWeight);
    assert t.workers == s.workers[l.w := t.workers[l.w]];
  }

  lemma OtherStepBalanced(s: Batch, l: Label)
    requires Inv(s) && Enabled(s, l) && !l.ProbeReturns? && !l.StageDone?
    ensures Balanced(s, Next(s, l))
  {
    hide Sum, ClosedBetween;
    var t := Next(s, l);
    if l.Rendezvous? {
      SumUpdate(s.progress, l.i, t.progress[l.i], ActiveWeight);
      SumUpdate(s.workers, l.w, t.workers[l.w], BusyWeight);
    } else if l.SeesClosed? || l.WorkerDone? {
      SumUpdate(s.workers, l.w, t.workers[l.w], BusyWeight);
    } else if l.Start? && s.main.started < |s.workers| {
      SumUpdate(s.workers, s.main.started, Receiving, BusyWeight);
    }
  }

  lemma StartedOnce(s: Batch, l: Label, i: nat)
    requires Inv(s) && Enabled(s, l) && i < |s.progress|
    ensures |Next(s, l).progress| == |s.progress|
    ensures Next(s, l).progress[i].NotStarted? <==> s.progress[i].NotStarted? && !HandoverOf(i)(l)
    ensures HandoverOf(i)(l) ==> s.progress[i].NotStarted?
  {
  }

  lemma {:induction false} SumAtMostLength<T>(s: seq<T>, f: T -> nat)
    requires forall x :: f(x) <= 1
    ensures Sum(s, f) <= |s|
  {
    if s != [] {
      SumAtMostLength(s[..|s| - 1], f);
    }
  }

  lemma {:induction false} RunTallies(workers: nat, jobs: nat, cancelled: bool, ls: seq<Label>)
    requires Run(Initial(workers, jobs, cancelled), ls).Some?
    ensures var t := Run(Initial(workers, jobs, cancelled), ls).value;
            && Inv(t) && |t.workers| == workers && |t.progress| == jobs
            && Sum(t.progress, ActiveWeight) == Sum(t.workers, BusyWeight)
            && forall i :: 0 <= i < jobs ==> Handovers(ls, i) == if t.progress[i].NotStarted? then 0 else 1
  {
    var s := Initial(workers, jobs, cancelled);
    if ls == [] {
      InitialInv(workers, jobs, cancelled);
      SumZero(s.progress, ActiveWeight);
      SumZero(s.workers, BusyWeight);
    } else {
      var n := |ls| - 1;
      RunTallies(workers, jobs, cancelled, ls[..n]);
      var m := Run(s, ls[..n]).value;
      InvKept(m, ls[n]);
      if ls[n].ProbeReturns? || ls[n].StageDone? {
        ProbeStepBalanced(m, ls[n]);
      } else {
        OtherStepBalanced(m, ls[n]);
      }
      forall i | 0 <= i < jobs
        ensures Handovers(ls, i) == if Next(m, ls[n]).progress[i].NotStarted? then 0 else 1
      {
        StartedOnce(m, ls[n], i);
      }
    }
  }

  /** Every job has been handed over exactly once and gone through all stages of `probeOne`, or was
      aborted by the cancellation and never touched. */
  ghost predicate Complete(t: Batch) {
    && (forall w :: 0 <= w < |t.workers| ==> t.workers[w].Stopped?)
    && (forall i :: 0 <= i < |t.dispatchers| ==> t.dispatchers[i].Gone?)
    && |t.progress| == |t.dispatchers|
    && (forall i :: 0 <= i < |t.progress| ==>
      if t.dispatchers[i].Gone? && t.dispatchers[i].sent then t.progress[i].Finished?
      else t.progress[i].NotStarted? && t.cancelled)
  }

  lemma ReturnedIsComplete(t: Batch)
    requires Inv(t) && t.main.Returned?
    ensures Complete(t)
  {
    assert forall i :: 0 <= i < |t.progress| ==> !t.progress[i].Probing? && !t.progress[i].Running?;
  }

  /** In every reachable state of a batch: nothing is sent after the close and no wait group goes
      negative, at most as many probes as workers are under way, and no entry is probed twice; when
      the batch returns, every entry was probed exactly once to the end, or aborted. */
  lemma BatchSafety(workers: nat, jobs: nat, cancelled: bool, ls: seq<Label>)
    requires Run(Initial(workers, jobs, cancelled), ls).Some?
    ensures var t := Run(Initial(workers, jobs, cancelled), ls).value;
            && !t.panicked
            && |t.dispatchers| == jobs && |t.progress| == jobs
            && (t.closed ==> forall i :: 0 <= i < jobs ==> !t.dispatchers[i].Sending?)
            && Sum(t.progress, ActiveWeight) <= workers
            && (forall i :: 0 <= i < jobs ==> Handovers(ls, i) <= 1)
            && (t.main.Returned? ==> Complete(t))
            && (t.main.Returned? && !t.cancelled ==>
              forall i :: 0 <= i < jobs ==> t.progress[i].Finished? && Handovers(ls, i) == 1)
  {
    RunTallies(workers, jobs, cancelled, ls);
    var t := Run(Initial(workers, jobs, cancelled), ls).value;
    SumAtMostLength(t.workers, BusyWeight);
    if t.main.Returned? {
      ReturnedIsComplete(t);
    }
  }

  // ---------- progress and termination ----------

  function DispatcherWork(d: Dispatcher): nat {
    match d
    case Unborn => 3
    case Delayed => 3
    case Sending => 2
    case Leaving(_) => 1
    case Gone(_) => 0
  }

  function WorkerWork(w: Worker): nat {
    match w
    case Stopped => 0
    case Finishing => 1
    case _ => 2
  }

  function JobWork(p: Progress): nat {
    match p
    case NotStarted => 8
    case Probing(_) => 8
    case Running(_, stage, _) => stage.Left()
    case Finished(_) => 0
  }

  function MainWork(s: Batch): int {
    match s.main
    case Starting(k) => |s.workers| + |s.dispatchers| - k + 2
    case AwaitingWorkers => 1
    case Returned => 0
  }

  /** What is left to do; every step of the batch lowers it. */
  function Work(s: Batch): int {
    MainWork(s) + Sum(s.dispatchers, DispatcherWork) + Sum(s.workers, WorkerWork) + Sum(s.progress, JobWork)
      + (if s.cancelled then 0 else 1)
  }

  lemma HandoverShrinksWork(s: Batch, l: Label)
    requires Inv(s) && Enabled(s, l) && (l.Rendezvous? || DispatcherLabel(l))
    ensures Work(Next(s, l)) < Work(s)
  {
    hide Sum, InOrder;
    var t := Next(s, l);
    SumUpdate(s.dispatchers, l.i, t.dispatchers[l.i], DispatcherWork);
    if l.Rendezvous? {
      SumUpdate(s.workers, l.w, t.workers[l.w], WorkerWork);
      SumUpdate(s.progress, l.i, t.progress[l.i], JobWork);
    }
  }

  lemma ProbeShrinksWork(s: Batch, w: nat, r: Result)
    requires Inv(s) && Enabled(s, ProbeReturns(w, r))
    ensures Work(Next(s, ProbeReturns(w, r))) < Work(s)
  {
    hide Sum, PhaseInv, JobInv;
    var i := s.workers[w].job;
    SumUpdate(s.progress, i, Running(w, Saving, r), JobWork);
  }

  lemma StageShrinksWork(s: Batch, w: nat)
    requires Inv(s) && Enabled(s, StageDone(w))
    ensures Work(Next(s, StageDone(w))) < Work(s)
  {
    hide Sum, PhaseInv, JobInv;
    var i, t := s.workers[w].job, Next(s, StageDone(w));
    SumUpdate(s.progress, i, t.progress[i], JobWork);
    if s.progress[i].stage.Final() {
      SumUpdate(s.workers, w, Receiving, WorkerWork);
    }
  }

  lemma ExitShrinksWork(s: Batch, l: Label)
    requires Inv(s) && Enabled(s, l) && (l.SeesClosed? || l.WorkerDone?)
    ensures Work(Next(s, l)) < Work(s)
  {
    hide Sum, PhaseInv, JobInv;
    SumUpdate(s.workers, l.w, Next(s, l).workers[l.w], WorkerWork);
  }

  lemma MainShrinksWork(s: Batch, l: Label)
    requires Inv(s) && Enabled(s, l) && (l.Start? || l.Cancel? || l.CloseJobs? || l.Return?)
    ensures Work(Next(s, l)) < Work(s)
  {
    hide Sum, JobInv;
    if l.Start? {
      var k := s.main.started;
      if k < |s.workers| {
        SumUpdate(s.workers, k, Receiving, WorkerWork);
      } else {
        SumUpdate(s.dispatchers, k - |s.workers|, Delayed, DispatcherWork);
      }
    }
  }

  lemma StepShrinksWork(s: Batch, l: Label)
    requires Inv(s) && Enabled(s, l)
    ensures 0 <= Work(Next(s, l)) < Work(s)
  {
    InvKept(s, l);
    if l.Rendezvous? || DispatcherLabel(l) {
      HandoverShrinksWork(s, l);
    } else if l.ProbeReturns? {
      ProbeShrinksWork(s, l.w, l.result);
    } else if l.StageDone? {
      StageShrinksWork(s, l.w);
    } else if WorkerLabel(l) {
      ExitShrinksWork(s, l);
    } else {
      MainShrinksWork(s, l);
    }
  }

  /** Every execution of a batch is finite: it takes at most three steps per worker, twelve per
      monitor and three more. */
  lemma {:induction false} BatchTerminates(workers: nat, jobs: nat, cancelled: bool, ls: seq<Label>)
    requires Run(Initial(workers, jobs, cancelled), ls).Some?
    ensures |ls| + Work(Run(Initial(workers, jobs, cancelled), ls).value) <= 3 * workers + 12 * jobs + 3
    ensures |ls| <= 3 * workers + 12 * jobs + 3
  {
    var s := Initial(workers, jobs, cancelled);
    InitialInv(workers, jobs, cancelled);
    if ls == [] {
      SumConstant(s.dispatchers, DispatcherWork, 3);
      SumConstant(s.workers, WorkerWork, 2);
      SumConstant(s.progress, JobWork, 8);
    } else {
      var n := |ls| - 1;
      BatchTerminates(workers, jobs, cancelled, ls[..n]);
      RunKeepsInv(s, ls[..n]);
      StepShrinksWork(Run(s, ls[..n]).value, ls[n]);
    }
  }

  lemma WorkerCanStep(s: Batch, w: nat, r: Result) returns (l: Label)
    requires Inv(s) && w < |s.workers|
    requires s.workers[w].Busy? || s.workers[w].Finishing? || (s.workers[w].Receiving? && s.closed)
    ensures Enabled(s, l) && WorkerLabel(l)
  {
    match s.workers[w]
    case Busy(i) => l := if s.progress[i].Probing? then ProbeReturns(w, r) else StageDone(w);
    case Finishing => l := WorkerDone(w);
    case _ => l := SeesClosed(w);
  }

  /** With at least one worker, or once cancelled, an unfinished batch is never stuck: some goroutine
      other than the canceller can move. `r` is whatever a probe may return. */
  lemma BatchProgress(s: Batch, r: Result) returns (l: Label)
    requires Inv(s) && !s.main.Returned? && (|s.workers| > 0 || |s.dispatchers| == 0 || s.cancelled)
    ensures Enabled(s, l) && l != Cancel
  {
    if s.main.Starting? {
      if s.main.started < |s.workers| + |s.dispatchers| {
        l := Start;
      } else if s.dispatchGroup == 0 {
        l := CloseJobs;
      } else {
        var i := PositiveElement(s.dispatchers, LiveDispatcher);
        match s.dispatchers[i]
        case Delayed => l := TimerFires(i);
        case Leaving(_) => l := DispatcherDone(i);
        case Sending =>
          if s.cancelled {
            l := Abort(i);
          } else if s.workers[0].Receiving? {
            l := Rendezvous(i, 0);
          } else {
            l := WorkerCanStep(s, 0, r);
          }
        case _ => assert false;
      }
    } else if s.workerGroup == 0 {
      l := Return;
    } else {
      var w := PositiveElement(s.workers, LiveWorker);
      l := WorkerCanStep(s, w, r);
    }
  }

  /** From every state of a batch with a worker, whatever its probes return, a run without a further
      cancellation leads to the return. */
  lemma CanReturn(s: Batch, r: Result) returns (ls: seq<Label>)
    requires Inv(s) && |s.workers| > 0
    ensures Run(s, ls).Some? && Run(s, ls).value.main.Returned? && Run(s, ls).value.cancelled == s.cancelled
  {
    hide Inv, Enabled, Next, Work;
    ls := [];
    var t := s;
    if !s.main.Returned? {
      WorkIsLeft(s, r);
    }
    while !t.main.Returned?
      invariant Inv(t) && |t.workers| > 0 && t.cancelled == s.cancelled && Run(s, ls) == Some(t)
      invariant Work(t) >= 0 || t.main.Returned?
      decreases Work(t)
    {
      var l := BatchProgress(t, r);
      InvKept(t, l);
      StepShrinksWork(t, l);
      OnlyCancelCancels(t, l);
      assert (ls + [l])[..|ls|] == ls;
      ls := ls + [l];
      t := Next(t, l);
    }
  }

  /** So far only dispatchers of `cut` were aborted and only others have come through. */
  ghost predicate CutSoFar(s: Batch, cut: set<nat>) {
    forall i :: 0 <= i < |s.dispatchers| ==>
      && (Aborted(s.dispatchers[i]) ==> i in cut)
      && (s.dispatchers[i].Sending? || Sent(s.dispatchers[i]) ==> i !in cut)
  }

  lemma CutStep(s: Batch, r: Result, cut: set<nat>) returns (l: Label)
    requires Inv(s) && s.cancelled && |s.workers| > 0 && !s.main.Returned? && CutSoFar(s, cut)
    ensures Enabled(s, l) && l != Cancel && CutSoFar(Next(s, l), cut)
  {
    if s.main.Starting? && s.main.started < |s.workers| + |s.dispatchers| {
      l := Start;
    } else if s.main.Starting? && s.dispatchGroup == 0 {
      l := CloseJobs;
    } else if s.main.Starting? {
      var i := PositiveElement(s.dispatchers, LiveDispatcher);
      match s.dispatchers[i]
      case Delayed => l := if i in cut then Abort(i) else TimerFires(i);
      case Leaving(_) => l := DispatcherDone(i);
      case Sending =>
        if s.workers[0].Receiving? {
          l := Rendezvous(i, 0);
        } else {
          l := WorkerCanStep(s, 0, r);
        }
      case _ => assert false;
    } else if s.workerGroup == 0 {
      l := Return;
    } else {
      var w := PositiveElement(s.workers, LiveWorker);
      l := WorkerCanStep(s, w, r);
    }
    CutKept(s, l, cut);
  }

  lemma CutKept(s: Batch, l: Label, cut: set<nat>)
    requires Inv(s) && Enabled(s, l) && CutSoFar(s, cut)
    requires l.Abort? ==> l.i in cut
    requires l.TimerFires? ==> l.i !in cut
    ensures CutSoFar(Next(s, l), cut)
  {
    hide Sum, Matched;
  }

  /** A cancelled batch can have every outcome: for each set of entries there is a run in which exactly
      those are cut short, and all others are probed to the end although the cancellation came first. */
  lemma AnyCutPossible(workers: nat, jobs: nat, cut: set<nat>, r: Result) returns (ls: seq<Label>)
    requires workers > 0
    ensures Run(Initial(workers, jobs, true), ls).Some?
    ensures var t := Run(Initial(workers, jobs, true), ls).value;
            && t.main.Returned? && |t.progress| == jobs
            && forall i :: 0 <= i < jobs ==>
              (i in cut ==> t.progress[i].NotStarted?) && (i !in cut ==> t.progress[i].Finished?)
  {
    hide Inv, Enabled, Next, Work, CutSoFar;
    var s := Initial(workers, jobs, true);
    InitialInv(workers, jobs, true);
    CutAtFirst(workers, jobs, cut);
    ls := [];
    var t := s;
    WorkIsLeft(s, r);
    while !t.main.Returned?
      invariant Inv(t) && |t.workers| > 0 && t.cancelled && CutSoFar(t, cut) && Run(s, ls) == Some(t)
      invariant Work(t) >= 0 || t.main.Returned?
      decreases Work(t)
    {
      var l := CutStep(t, r, cut);
      InvKept(t, l);
      StepShrinksWork(t, l);
      OnlyCancelCancels(t, l);
      assert (ls + [l])[..|ls|] == ls;
      ls := ls + [l];
      t := Next(t, l);
    }
    RunTallies(workers, jobs, true, ls);
    ReturnedIsComplete(t);
    CutAtLast(t, cut);
  }

  lemma CutAtFirst(workers: nat, jobs: nat, cut: set<nat>)
    ensures CutSoFar(Initial(workers, jobs, true), cut)
  {
  }

  lemma CutAtLast(t: Batch, cut: set<nat>)
    requires CutSoFar(t, cut) && Complete(t)
    ensures forall i :: 0 <= i < |t.progress| ==>
      (i in cut ==> t.progress[i].NotStarted?) && (i !in cut ==> t.progress[i].Finished?)
  {
  }

  lemma OnlyCancelCancels(s: Batch, l: Label)
    requires Enabled(s, l) && l != Cancel
    ensures Next(s, l).cancelled == s.cancelled && |Next(s, l).workers| == |s.workers|
  {
  }

  lemma WorkIsLeft(s: Batch, r: Result)
    requires Inv(s) && |s.workers| > 0 && !s.main.Returned?
    ensures Work(s) >= 0
  {
    var l := BatchProgress(s, r);
    StepShrinksWork(s, l);
  }

  /** A started dispatcher that nobody can take over right now is waiting for a pool in which every
      worker is busy, each with a job of its own. */
  lemma WaitingMeansPoolBusy(s: Batch, i: nat)
    requires Inv(s) && i < |s.dispatchers| && s.dispatchers[i].Sending?
    requires s.main.Starting? && s.main.started >= |s.workers|
    requires forall w :: !Enabled(s, Rendezvous(i, w))
    ensures forall w :: 0 <= w < |s.workers| ==> s.workers[w].Busy?
    ensures forall v, w :: 0 <= v < w < |s.workers| ==> s.workers[v].job != s.workers[w].job
  {
    forall w | 0 <= w < |s.workers| ensures s.workers[w].Busy? {
      assert !Enabled(s, Rendezvous(i, w));
    }
  }

  // ---------- without workers ----------

  /** Nobody but the canceller can move, and the batch has not returned. */
  ghost predicate Stuck(s: Batch) {
    !s.main.Returned? && forall l :: Enabled(s, l) ==> l == Cancel
  }

  /** All dispatchers started and waiting to hand over, nobody there to receive. */
  ghost predicate AllSending(s: Batch, jobs: nat, fired: nat) {
    && s.workers == [] && |s.dispatchers| == jobs == |s.progress| && fired <= jobs
    && s.main == Starting(jobs) && s.dispatchGroup == jobs && !s.closed && !s.cancelled
    && (forall i :: 0 <= i < jobs ==> s.dispatchers[i] == if i < fired then Sending else Delayed)
  }

  /** The first `k` dispatchers of a batch without workers are started. */
  ghost predicate Started(s: Batch, jobs: nat, k: nat) {
    && s.workers == [] && |s.dispatchers| == jobs == |s.progress| && k <= jobs
    && s.main == Starting(k) && s.dispatchGroup == k && !s.closed && !s.cancelled
    && (forall i :: 0 <= i < jobs ==> s.dispatchers[i] == if i < k then Delayed else Unborn)
  }

  lemma {:induction false} StartAll(jobs: nat, k: nat) returns (ls: seq<Label>)
    requires k <= jobs
    ensures var t := Run(Initial(0, jobs, false), ls);
            t.Some? && Started(t.value, jobs, k)
  {
    if k == 0 {
      ls := [];
    } else {
      var before := StartAll(jobs, k - 1);
      ls := before + [Start];
      assert ls[..|ls| - 1] == before;
    }
  }

  lemma {:induction false} FireAll(jobs: nat, k: nat) returns (ls: seq<Label>)
    requires k <= jobs
    ensures var t := Run(Initial(0, jobs, false), ls);
            t.Some? && AllSending(t.value, jobs, k)
  {
    if k == 0 {
      ls := StartAll(jobs, jobs);
    } else {
      var before := FireAll(jobs, k - 1);
      ls := before + [TimerFires(k - 1)];
      assert ls[..|ls| - 1] == before;
    }
  }

  /** Along `ls` a batch reaches a stuck state. */
  ghost predicate GetsStuck(workers: nat, jobs: nat, cancelled: bool, ls: seq<Label>) {
    Run(Initial(workers, jobs, cancelled), ls).Some? && Stuck(Run(Initial(workers, jobs, cancelled), ls).value)
  }

  lemma {:induction false} StaysCancelled(s: Batch, ls: seq<Label>)
    requires s.cancelled && Run(s, ls).Some?
    ensures Run(s, ls).value.cancelled
  {
    if ls != [] {
      StaysCancelled(s, ls[..|ls| - 1]);
    }
  }

  /** Exactly when a batch can get stuck: no workers, something to do, and not cancelled from the
      start; and what it is then waiting for is the cancellation, which always frees it. */
  lemma StuckExactly(workers: nat, jobs: nat, cancelled: bool)
    ensures (exists ls :: GetsStuck(workers, jobs, cancelled, ls)) <==> workers == 0 && jobs > 0 && !cancelled
    ensures forall ls :: GetsStuck(workers, jobs, cancelled, ls) ==>
      Enabled(Run(Initial(workers, jobs, cancelled), ls).value, Cancel)
  {
    if workers == 0 && jobs > 0 && !cancelled {
      var ls := FireAll(jobs, jobs);
      var t := Run(Initial(0, jobs, false), ls).value;
      assert Stuck(t);
      assert GetsStuck(workers, jobs, cancelled, ls);
    }
    forall ls | GetsStuck(workers, jobs, cancelled, ls)
      ensures workers == 0 && jobs > 0 && !Run(Initial(workers, jobs, cancelled), ls).value.cancelled
    {
      RunTallies(workers, jobs, cancelled, ls);
      var t := Run(Initial(workers, jobs, cancelled), ls).value;
      if workers > 0 || jobs == 0 || t.cancelled {
        var l := BatchProgress(t, Result("", 0, 0, None, 0, 0, 0, 0, 0, 0));
      }
    }
    if cancelled {
      forall ls | Run(Initial(workers, jobs, cancelled), ls).Some?
        ensures Run(Initial(workers, jobs, cancelled), ls).value.cancelled
      {
        StaysCancelled(Initial(workers, jobs, cancelled), ls);
      }
    }
  }
}
