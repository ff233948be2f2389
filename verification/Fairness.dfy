/** Every fair run: the signal ends the daemon, and every alert gets handed over, even if the
    delivery worker never moves. */
module Fairness {
  import opened Monitoring
  import opened Sequences
  import opened Agreement
  import opened Shutdown
  import opened Liveness
  import Batch = ProbeBatch
  import Queue = AsyncQueue

  /** Moves of `run` and of the callers of the queue. */
  predicate Own(m: Move) {
    || m.BeginShutdown? || m.WaitTimesOut? || m.DrainReturns? || m.CloseStore?
    || m.Tells? || m.TellingEnds? || (m.InQueue? && !Queue.WorkerLabel(m.step))
  }

  ghost predicate StepAt(run: nat -> Server, moves: nat -> Move, k: nat) {
    Enabled(run(k), moves(k)) && run(k + 1) == Next(run(k), moves(k))
  }

  /** An infinite execution from a state a daemon can reach. */
  ghost predicate Executes(run: nat -> Server, moves: nat -> Move) {
    Good(run(0)) && forall k: nat :: StepAt(run, moves, k)
  }

  ghost predicate AlwaysEnabled(run: nat -> Server, m: Move, k: nat) {
    forall j: nat :: j >= k ==> Enabled(run(j), m)
  }

  /** Weak fairness, towards `run` and the callers alone: what stays enabled is done some day. */
  ghost predicate Fair(run: nat -> Server, moves: nat -> Move) {
    forall m, k: nat :: Own(m) && AlwaysEnabled(run, m, k) ==> exists j: nat :: j >= k && moves(j) == m
  }

  lemma {:induction false} AlwaysGood(run: nat -> Server, moves: nat -> Move, k: nat)
    requires Executes(run, moves)
    ensures Good(run(k))
  {
    hide Good, Enabled, Next;
    if k > 0 {
      AlwaysGood(run, moves, k - 1);
      assert StepAt(run, moves, k - 1);
      GoodKept(run(k - 1), moves(k - 1));
    }
  }

  // ---------- getting past the lock ----------

  /** The first producer inside its critical section. */
  function FirstInside(ps: seq<Queue.Producer>): (i: nat)
    ensures i <= |ps|
    ensures i < |ps| ==> Queue.Inside(ps[i])
    ensures forall j :: 0 <= j < i ==> !Queue.Inside(ps[j])
  {
    if ps == [] then 0
    else if Queue.Inside(ps[0]) then 0
    else 1 + FirstInside(ps[1..])
  }

  function CallerLabel(p: Queue.Producer, i: nat): Queue.Label {
    match p
    case Entered(_) => Queue.CheckClosed(i)
    case SawOpen(_) => Queue.TrySend(i)
    case _ => Queue.Leave(i)
  }

  /** What brings a held or awaited lock nearer to its release. */
  function LockLabel(q: Queue.AsyncState): Queue.Label
    requires |q.closers| == 1
  {
    match q.closers[0]
    case Announced =>
      var i := FirstInside(q.producers);
      if i < |q.producers| then CallerLabel(q.producers[i], i) else Queue.Acquire(0)
    case Holding => Queue.MarkClosed(0)
    case Marked => Queue.CloseChannel(0)
    case _ => Queue.Release(0)
  }

  /** A call returns together with the stage of the probe it belongs to. */
  function MoveOf(l: Queue.Label): Move {
    if l.Leave? then TellingEnds(l.p) else InQueue(l)
  }

  function InsideWork(p: Queue.Producer): nat {
    match p
    case Entered(_) => 3
    case SawOpen(_) => 2
    case Leaving => 1
    case _ => 0
  }

  function CloserLeft(c: Queue.Closer): nat {
    match c
    case Calm => 6
    case Announced => 5
    case Holding => 4
    case Marked => 3
    case Releasing => 2
    case Awaiting => 1
    case Returned(_) => 0
  }

  /** While a closer waits for the readers: the steps they have left inside. */
  function ReadersLeft(q: Queue.AsyncState): nat
    requires |q.closers| == 1
  {
    if q.closers[0].Announced? then Sum(q.producers, InsideWork) else 0
  }

  lemma OneWriter(q: Queue.AsyncState)
    requires Queue.LockInv(q) && |q.closers| == 1
    ensures q.writer <==> Queue.HasWriter(q.closers[0])
    ensures FirstInside(q.producers) == |q.producers| ==> q.readers == 0
    ensures !q.panicked
  {
    hide Queue.ReadersExcluded, Queue.OpenAsSeen;
    assert Sum(q.closers, Queue.WriterWeight) == Queue.WriterWeight(q.closers[0]) by {
      assert q.closers[..0] == [];
      assert Sum(q.closers[..0], Queue.WriterWeight) == 0;
    }
    if FirstInside(q.producers) == |q.producers| {
      SumZero(q.producers, Queue.InsideWeight);
    }
  }

  /** Steps of producers other than entering and calling lower the readers' work, all other steps
      leave the producers inside alone. */
  lemma ReadersGoOn(q: Queue.AsyncState, l: Queue.Label)
    requires Queue.LockInv(q) && Queue.Enabled(q, l) && |q.closers| == 1 && q.closers[0].Announced?
    ensures var r := Queue.Next(q, l);
            && |r.closers| == 1 && |r.producers| == |q.producers|
            && CloserLeft(r.closers[0]) <= CloserLeft(q.closers[0])
            && (r.closers[0].Announced? ==>
              && ReadersLeft(r) <= ReadersLeft(q)
              && (ReadersLeft(r) == ReadersLeft(q) ==> LockLabel(r) == LockLabel(q))
              && (Queue.InsideCallLabel(l) && Queue.ProducerLabel(l) ==> ReadersLeft(r) < ReadersLeft(q)))
  {
    OneWriter(q);
    CloserGoesOn(q, l);
    if Queue.ProducerLabel(l) {
      OthersSpareClosers(q, l);
      ReaderSteps(q, l);
    } else {
      CloserSparesProducers(q, l);
    }
    hide Sum, FirstInside, Queue.LockInv, Queue.Next, Queue.Enabled;
  }

  /** Nobody enters while a closer waits, so every step of a producer inside is one less to wait for. */
  lemma ReaderSteps(q: Queue.AsyncState, l: Queue.Label)
    requires Queue.LockInv(q) && Queue.Enabled(q, l) && Queue.ProducerLabel(l) && q.writer && !q.panicked
    ensures var r := Queue.Next(q, l);
            && |r.producers| == |q.producers|
            && Sum(r.producers, InsideWork) <= Sum(q.producers, InsideWork)
            && (l.CallNotify? ==> FirstInside(r.producers) == FirstInside(q.producers))
            && (l.CallNotify? && FirstInside(q.producers) < |q.producers| ==>
              r.producers[FirstInside(q.producers)] == q.producers[FirstInside(q.producers)])
            && (!l.CallNotify? ==> Sum(r.producers, InsideWork) < Sum(q.producers, InsideWork))
  {
    hide Sum, FirstInside, Queue.LockInv;
    if l.TrySend? {
      Queue.SeenOpenChannelOpen(q, l.p);
    }
    var r := Queue.Next(q, l);
    SumUpdate(q.producers, l.p, r.producers[l.p], InsideWork);
    if l.CallNotify? {
      SameFirst(q.producers, l.p, r.producers[l.p]);
    }
  }

  /** A producer that is outside before and after does not change who is first inside. */
  lemma {:induction false} SameFirst(ps: seq<Queue.Producer>, i: nat, p: Queue.Producer)
    requires i < |ps| && !Queue.Inside(ps[i]) && !Queue.Inside(p)
    ensures FirstInside(ps[i := p]) == FirstInside(ps)
    ensures FirstInside(ps) < |ps| ==> ps[i := p][FirstInside(ps)] == ps[FirstInside(ps)]
  {
    if i > 0 && !Queue.Inside(ps[0]) {
      assert ps[i := p][1..] == ps[1..][i - 1 := p];
      SameFirst(ps[1..], i - 1, p);
    } else if i == 0 {
      assert ps[i := p][1..] == ps[1..];
    }
  }

  lemma CloserGoesOn(q: Queue.AsyncState, l: Queue.Label)
    requires Queue.Enabled(q, l) && |q.closers| == 1
    ensures |Queue.Next(q, l).closers| == 1
    ensures CloserLeft(Queue.Next(q, l).closers[0]) <= CloserLeft(q.closers[0])
    ensures CloserLeft(Queue.Next(q, l).closers[0]) == CloserLeft(q.closers[0]) ==>
      (Queue.Next(q, l).closers[0].Announced? <==> q.closers[0].Announced?)
  {
    if Queue.ProducerLabel(l) || Queue.WorkerLabel(l) {
      OthersSpareClosers(q, l);
    } else {
      CloserMovesOn(q, l);
    }
  }

  lemma OthersSpareClosers(q: Queue.AsyncState, l: Queue.Label)
    requires Queue.Enabled(q, l) && (Queue.ProducerLabel(l) || Queue.WorkerLabel(l))
    ensures Queue.Next(q, l).closers == q.closers
  {
  }

  lemma CloserMovesOn(q: Queue.AsyncState, l: Queue.Label)
    requires Queue.Enabled(q, l) && !Queue.ProducerLabel(l) && !Queue.WorkerLabel(l) && |q.closers| == 1
    ensures Queue.Next(q, l).producers == q.producers && |Queue.Next(q, l).closers| == 1
    ensures Queue.Next(q, l) == q.(panicked := true)
      || CloserLeft(Queue.Next(q, l).closers[0]) < CloserLeft(q.closers[0])
  {
  }

  /** While the lock is held or awaited, its next step is enabled, and makes its closer, or the
      readers it waits for, go on. */
  lemma LockLabelEnabled(q: Queue.AsyncState)
    requires Queue.LockInv(q) && q.writer && |q.closers| == 1
    ensures Queue.InsideCallLabel(LockLabel(q)) && Queue.Enabled(q, LockLabel(q))
  {
    OneWriter(q);
    hide Queue.LockInv, FirstInside;
  }

  ghost predicate Nearer(q: Queue.AsyncState, r: Queue.AsyncState) {
    && |q.closers| == |r.closers| == 1
    && (CloserLeft(r.closers[0]) < CloserLeft(q.closers[0])
      || (CloserLeft(r.closers[0]) == CloserLeft(q.closers[0]) && ReadersLeft(r) < ReadersLeft(q)))
  }

  lemma LockLabelCounts(q: Queue.AsyncState)
    requires Queue.LockInv(q) && q.writer && |q.closers| == 1 && Queue.Enabled(q, LockLabel(q))
    ensures Nearer(q, Queue.Next(q, LockLabel(q)))
  {
    OneWriter(q);
    var l := LockLabel(q);
    CloserGoesOn(q, l);
    if q.closers[0].Announced? && FirstInside(q.producers) < |q.producers| {
      ReadersGoOn(q, l);
      hide Queue.LockInv, ReadersLeft, FirstInside;
    } else {
      hide Queue.LockInv, Sum, FirstInside;
      CloserSteps(q, l);
    }
  }

  lemma CloserSteps(q: Queue.AsyncState, l: Queue.Label)
    requires Queue.LockInv(q) && Queue.Enabled(q, l) && |q.closers| == 1
    requires l.Acquire? || l.MarkClosed? || l.CloseChannel? || l.Release?
    ensures |Queue.Next(q, l).closers| == 1
    ensures CloserLeft(Queue.Next(q, l).closers[0]) < CloserLeft(q.closers[0])
  {
    hide Sum, Queue.LockInv;
    if l.CloseChannel? {
      Queue.MarkedChannelOpen(q, 0);
    }
  }

  lemma LockMoveEnabled(s: Server)
    requires Good(s) && s.queue.writer
    ensures |s.queue.closers| == 1
    ensures Enabled(s, MoveOf(LockLabel(s.queue))) && Own(MoveOf(LockLabel(s.queue)))
    ensures Nearer(s.queue, Next(s, MoveOf(LockLabel(s.queue))).queue)
  {
    InvHasLock(s);
    OneCloser(s);
    hide Good, Queue.LockInv, LockLabel, Enabled, Next, Nearer, Queue.Enabled, Queue.Next;
    LockLabelEnabled(s.queue);
    LockLabelCounts(s.queue);
    var m := CallerStep(s, LockLabel(s.queue));
  }

  lemma OneCloser(s: Server)
    requires Good(s)
    ensures |s.queue.closers| == 1
  {
    hide Queue.Inv, Linked;
  }

  /** What a move of the server does to the queue. */
  function QueueLabel(s: Server, m: Move): Option<Queue.Label>
    requires Enabled(s, m)
  {
    match m
    case Tells(w) => Some(Queue.CallNotify(w, Alert(s.daemon, w).value))
    case InQueue(l) => Some(l)
    case TellingEnds(w) => Some(Queue.Leave(w))
    case _ => None
  }

  lemma QueueOf(s: Server, m: Move)
    requires Enabled(s, m)
    ensures var l := QueueLabel(s, m);
            && (l.Some? ==> Queue.Enabled(s.queue, l.value) && Next(s, m).queue == Queue.Next(s.queue, l.value))
            && (l.None? ==> Next(s, m).queue == s.queue)
  {
    hide Queue.Next, Alert, Happen, CanHappen;
  }

  /** No move takes the closer back, or gives waiting readers more to do. */
  lemma LockGoesOn(s: Server, m: Move)
    requires Good(s) && Enabled(s, m) && |s.queue.closers| == 1
    ensures var q, r := s.queue, Next(s, m).queue;
            && |r.closers| == 1 && CloserLeft(r.closers[0]) <= CloserLeft(q.closers[0])
            && (CloserLeft(r.closers[0]) == CloserLeft(q.closers[0]) ==>
              && (r.closers[0].Announced? <==> q.closers[0].Announced?)
              && ReadersLeft(r) <= ReadersLeft(q)
              && (q.closers[0].Announced? && ReadersLeft(r) == ReadersLeft(q) ==> LockLabel(r) == LockLabel(q)))
  {
    hide Queue.Next, Queue.Enabled, Queue.LockInv, Good, Enabled, Next, LockLabel, ReadersLeft;
    QueueOf(s, m);
    var l := QueueLabel(s, m);
    if l.Some? {
      CloserGoesOn(s.queue, l.value);
      InvHasLock(s);
      if s.queue.closers[0].Announced? {
        ReadersGoOn(s.queue, l.value);
      } else {
        NoReaders(s.queue);
        NoReaders(Queue.Next(s.queue, l.value));
      }
    }
  }

  lemma NoReaders(q: Queue.AsyncState)
    requires |q.closers| == 1
    ensures !q.closers[0].Announced? ==> ReadersLeft(q) == 0
  {
  }

  // ---------- a fair run gets there ----------

  ghost predicate Less(a: nat -> nat, b: nat -> nat, k: nat, j: nat) {
    a(j) < a(k) || (a(j) == a(k) && b(j) < b(k))
  }

  /** At moment `k` the goal is still open, one own move would bring it nearer, and whatever else
      happens leaves that move as it is. */
  ghost predicate DescentAt(
    run: nat -> Server, moves: nat -> Move, a: nat -> nat, b: nat -> nat, choice: nat -> Move, open: nat -> bool,
    k: nat)
  {
    && Own(choice(k)) && Enabled(run(k), choice(k))
    && (!open(k + 1) || Less(a, b, k, k + 1)
      || (a(k + 1) == a(k) && b(k + 1) == b(k) && choice(k + 1) == choice(k) && moves(k) != choice(k)))
  }

  ghost predicate Descent(
    run: nat -> Server, moves: nat -> Move, a: nat -> nat, b: nat -> nat, choice: nat -> Move, open: nat -> bool)
  {
    forall k: nat :: open(k) ==> DescentAt(run, moves, a, b, choice, open, k)
  }

  ghost predicate Stalled(a: nat -> nat, b: nat -> nat, open: nat -> bool, k: nat) {
    forall j: nat :: j >= k ==> open(j) && !Less(a, b, k, j)
  }

  lemma StalledAt(a: nat -> nat, b: nat -> nat, open: nat -> bool, k: nat, j: nat)
    requires Stalled(a, b, open, k) && j >= k
    ensures open(j) && !Less(a, b, k, j)
  {
  }

  lemma DescentNow(
    run: nat -> Server, moves: nat -> Move, a: nat -> nat, b: nat -> nat, choice: nat -> Move, open: nat -> bool,
    k: nat)
    requires Descent(run, moves, a, b, choice, open) && open(k)
    ensures DescentAt(run, moves, a, b, choice, open, k)
  {
  }

  lemma StalledStep(
    run: nat -> Server, moves: nat -> Move, a: nat -> nat, b: nat -> nat, choice: nat -> Move, open: nat -> bool,
    k: nat, j: nat)
    requires Descent(run, moves, a, b, choice, open) && Stalled(a, b, open, k) && j >= k
    requires a(j) == a(k) && b(j) == b(k)
    ensures a(j + 1) == a(k) && b(j + 1) == b(k) && choice(j + 1) == choice(j)
    ensures Enabled(run(j), choice(j)) && Own(choice(j)) && moves(j) != choice(j)
  {
    hide Enabled, Own, Descent, Stalled;
    StalledAt(a, b, open, k, j);
    StalledAt(a, b, open, k, j + 1);
    DescentNow(run, moves, a, b, choice, open, j);
  }

  lemma {:induction false} StalledStays(
    run: nat -> Server, moves: nat -> Move, a: nat -> nat, b: nat -> nat, choice: nat -> Move, open: nat -> bool,
    k: nat, j: nat)
    requires Descent(run, moves, a, b, choice, open) && Stalled(a, b, open, k) && j >= k
    ensures a(j) == a(k) && b(j) == b(k) && choice(j) == choice(k)
    decreases j
  {
    if j > k {
      hide Enabled, Own, Descent, Stalled;
      StalledStays(run, moves, a, b, choice, open, k, j - 1);
      StalledStep(run, moves, a, b, choice, open, k, j - 1);
    }
  }

  /** If nothing ever comes nearer, one own move stays enabled and is never made. */
  lemma StalledStarves(
    run: nat -> Server, moves: nat -> Move, a: nat -> nat, b: nat -> nat, choice: nat -> Move, open: nat -> bool,
    k: nat)
    requires Descent(run, moves, a, b, choice, open) && Stalled(a, b, open, k)
    ensures Own(choice(k)) && AlwaysEnabled(run, choice(k), k) && forall j: nat :: j >= k ==> moves(j) != choice(k)
  {
    hide Enabled, Own, Descent, Stalled;
    StalledStep(run, moves, a, b, choice, open, k, k);
    forall j: nat | j >= k ensures Enabled(run(j), choice(k)) && moves(j) != choice(k) {
      StalledStays(run, moves, a, b, choice, open, k, j);
      StalledStep(run, moves, a, b, choice, open, k, j);
    }
  }

  lemma NeverStalled(
    run: nat -> Server, moves: nat -> Move, a: nat -> nat, b: nat -> nat, choice: nat -> Move, open: nat -> bool,
    k: nat)
    requires Descent(run, moves, a, b, choice, open) && Fair(run, moves)
    ensures !Stalled(a, b, open, k)
  {
    hide Own, Descent, Stalled, AlwaysEnabled;
    if Stalled(a, b, open, k) {
      StalledStarves(run, moves, a, b, choice, open, k);
    }
  }

  lemma {:induction false} Ends(
    run: nat -> Server, moves: nat -> Move, a: nat -> nat, b: nat -> nat, choice: nat -> Move, open: nat -> bool,
    k: nat)
    returns (j: nat)
    requires Descent(run, moves, a, b, choice, open) && Fair(run, moves)
    ensures !open(j)
    decreases a(k), b(k)
  {
    hide Descent, Fair;
    NeverStalled(run, moves, a, b, choice, open, k);
    var n: nat :| n >= k && !(open(n) && !Less(a, b, k, n));
    if open(n) {
      j := Ends(run, moves, a, b, choice, open, n);
    } else {
      j := n;
    }
  }

  // ---------- the signal ends the daemon ----------

  /** What `run` does next, or what the lock it waits for needs. */
  function ShutdownMove(s: Server): Move {
    match s.main
    case Serving => BeginShutdown
    case Draining =>
      if |s.queue.closers| != 1 then DrainReturns
      else if s.queue.closers[0].Calm? then InQueue(Queue.Announce(0))
      else if s.queue.closers[0].Awaiting? then InQueue(Queue.GiveUp(0))
      else if s.queue.closers[0].Returned? then DrainReturns
      else MoveOf(LockLabel(s.queue))
    case ClosingStore => CloseStore
    case Done => CloseStore
    case _ => WaitTimesOut
  }

  function ShutdownLeft(s: Server): nat {
    6 - Rank(s.main) + (if |s.queue.closers| == 1 then CloserLeft(s.queue.closers[0]) else 0)
  }

  function WaitLeft(s: Server): nat {
    if |s.queue.closers| == 1 then ReadersLeft(s.queue) else 0
  }

  lemma MainGoesOn(s: Server, m: Move)
    requires Enabled(s, m)
    ensures Rank(s.main) <= Rank(Next(s, m).main)
    ensures s.daemon.cancelled ==> Next(s, m).daemon.cancelled
    ensures m.BeginShutdown? || m.WaitTimesOut? || m.DrainReturns? || m.CloseStore? ==>
      Rank(s.main) < Rank(Next(s, m).main)
  {
    hide Queue.Next, Queue.Enabled, Alert;
  }

  /** Nothing takes the shutdown back, and nothing but progress changes what is next. */
  lemma ShutdownGoesOn(s: Server, m: Move)
    requires Good(s) && Enabled(s, m)
    ensures var t := Next(s, m);
            && ShutdownLeft(t) <= ShutdownLeft(s)
            && (ShutdownLeft(t) == ShutdownLeft(s) ==>
              && WaitLeft(t) <= WaitLeft(s)
              && (WaitLeft(t) == WaitLeft(s) ==> ShutdownMove(t) == ShutdownMove(s)))
  {
    OneCloser(s);
    MainGoesOn(s, m);
    LockGoesOn(s, m);
    hide Good, Enabled, Next, ReadersLeft, LockLabel, ShutdownMove;
    if ShutdownLeft(Next(s, m)) == ShutdownLeft(s) {
      SameShutdownMove(s, Next(s, m));
    }
  }

  lemma SameShutdownMove(s: Server, t: Server)
    requires |s.queue.closers| == |t.queue.closers| == 1 && s.main == t.main
    requires CloserLeft(s.queue.closers[0]) == CloserLeft(t.queue.closers[0])
    ensures !s.queue.closers[0].Announced? || LockLabel(t.queue) == LockLabel(s.queue) ==>
      ShutdownMove(t) == ShutdownMove(s)
  {
    hide FirstInside;
  }

  lemma ShutdownMoveWorks(s: Server)
    requires Good(s) && s.daemon.cancelled && !s.main.Done?
    ensures Enabled(s, ShutdownMove(s)) && Own(ShutdownMove(s))
    ensures var t := Next(s, ShutdownMove(s));
            ShutdownLeft(t) < ShutdownLeft(s) || (ShutdownLeft(t) == ShutdownLeft(s) && WaitLeft(t) < WaitLeft(s))
  {
    OneCloser(s);
    DrainedBefore(s);
    if s.main.Draining? {
      DrainMoveWorks(s);
    } else {
      hide Good, ReadersLeft;
      MainGoesOn(s, ShutdownMove(s));
      LockGoesOn(s, ShutdownMove(s));
    }
  }

  lemma DrainMoveWorks(s: Server)
    requires Good(s) && s.main.Draining?
    ensures Enabled(s, ShutdownMove(s)) && Own(ShutdownMove(s))
    ensures var t := Next(s, ShutdownMove(s));
            ShutdownLeft(t) < ShutdownLeft(s) || (ShutdownLeft(t) == ShutdownLeft(s) && WaitLeft(t) < WaitLeft(s))
  {
    OneCloser(s);
    InvHasLock(s);
    OneWriter(s.queue);
    hide Good, Queue.LockInv, ReadersLeft, FirstInside, LockLabel;
    var m := ShutdownMove(s);
    if s.queue.writer {
      LockMoveEnabled(s);
      MainGoesOn(s, m);
      hide Enabled, Next;
    } else {
      FreeMoveWorks(s);
    }
  }

  lemma FreeMoveWorks(s: Server)
    requires Good(s) && s.main.Draining? && |s.queue.closers| == 1 && !s.queue.writer
    requires !Queue.HasWriter(s.queue.closers[0])
    ensures Enabled(s, ShutdownMove(s)) && Own(ShutdownMove(s))
    ensures ShutdownLeft(Next(s, ShutdownMove(s))) < ShutdownLeft(s)
  {
    hide Good, ReadersLeft, FirstInside, Queue.Next, Queue.Enabled;
    if !s.queue.closers[0].Returned? {
      CloserAlone(s.queue, if s.queue.closers[0].Calm? then Queue.Announce(0) else Queue.GiveUp(0));
    }
  }

  lemma CloserAlone(q: Queue.AsyncState, l: Queue.Label)
    requires |q.closers| == 1 && !q.writer
    requires (l == Queue.Announce(0) && q.closers[0].Calm?) || (l == Queue.GiveUp(0) && q.closers[0].Awaiting?)
    ensures Queue.Enabled(q, l) && |Queue.Next(q, l).closers| == 1
    ensures CloserLeft(Queue.Next(q, l).closers[0]) < CloserLeft(q.closers[0])
  {
  }

  lemma DrainedBefore(s: Server)
    requires Good(s)
    ensures s.main.ClosingStore? || s.main.Done? ==> |s.queue.closers| == 1 && s.queue.closers[0].Returned?
  {
    hide Queue.Inv, Linked;
  }

  /** In every fair run the daemon ends after the signal, whatever else happens, and though the
      delivery worker may be stuck in a provider for ever. */
  lemma FairRunsEnd(run: nat -> Server, moves: nat -> Move) returns (k: nat)
    requires Executes(run, moves) && Fair(run, moves) && run(0).daemon.cancelled
    ensures run(k).main.Done?
  {
    hide Good, Enabled, Next, ShutdownMove, ShutdownLeft, WaitLeft, Fair;
    var a, b := (k: nat) => ShutdownLeft(run(k)), (k: nat) => WaitLeft(run(k));
    var choice, open := (k: nat) => ShutdownMove(run(k)), (k: nat) => !run(k).main.Done?;
    forall k: nat | open(k) ensures DescentAt(run, moves, a, b, choice, open, k) {
      AlwaysGood(run, moves, k);
      AlwaysCancelled(run, moves, k);
      assert StepAt(run, moves, k);
      ShutdownMoveWorks(run(k));
      ShutdownGoesOn(run(k), moves(k));
    }
    k := Ends(run, moves, a, b, choice, open, 0);
  }

  lemma {:induction false} AlwaysCancelled(run: nat -> Server, moves: nat -> Move, k: nat)
    requires Executes(run, moves) && run(0).daemon.cancelled
    ensures run(k).daemon.cancelled
  {
    hide Good, Enabled, Next;
    if k > 0 {
      AlwaysCancelled(run, moves, k - 1);
      assert StepAt(run, moves, k - 1);
      MainGoesOn(run(k - 1), moves(k - 1));
    }
  }

  // ---------- every alert is handed over ----------

  /** What worker `w` does next towards the end of its call, or what the lock it waits for needs. */
  function TellingMove(s: Server, w: nat): Move {
    if w >= |s.queue.producers| then Tells(w)
    else
      match s.queue.producers[w]
      case Idle => Tells(w)
      case Wanting(_) =>
        if s.queue.writer && |s.queue.closers| == 1 then MoveOf(LockLabel(s.queue)) else InQueue(Queue.Enter(w))
      case p => MoveOf(CallerLabel(p, w))
  }

  function CallLeft(p: Queue.Producer): nat {
    match p
    case Idle => 5
    case Wanting(_) => 4
    case Entered(_) => 3
    case SawOpen(_) => 2
    case Leaving => 1
  }

  function TellingLeft(s: Server, w: nat): nat {
    (if w < |s.queue.producers| then CallLeft(s.queue.producers[w]) else 0)
      + (if |s.queue.closers| == 1 then CloserLeft(s.queue.closers[0]) else 0)
  }

  /** Only the worker itself takes its alert away, by finishing the stage. */
  lemma AlertRemains(s: Server, m: Move, w: nat)
    requires Good(s) && Enabled(s, m) && Alert(s.daemon, w).Some? && m != TellingEnds(w)
    ensures Alert(Next(s, m).daemon, w) == Alert(s.daemon, w)
  {
    hide Queue.Inv, Ordered;
    match m
    case InQueue(l) => hide Alert;
    case TellingEnds(v) => OtherAlertStays(s, v, w);
    case Scheduler(e) =>
      if e.BatchStep? {
        hide Alert;
        AlertsStay(s.daemon, e.step, w);
      } else {
        QuietSparesAlert(s, m, w);
      }
    case _ => QuietSparesAlert(s, m, w);
  }

  /** No step but its own takes a call back or forth, and its own only forth. */
  lemma CallGoesOn(q: Queue.AsyncState, l: Queue.Label, w: nat)
    requires Queue.LockInv(q) && Queue.Enabled(q, l) && w < |q.producers| && l != Queue.Leave(w)
    ensures var r := Queue.Next(q, l);
            && |r.producers| == |q.producers| && CallLeft(r.producers[w]) <= CallLeft(q.producers[w])
            && (Queue.ProducerLabel(l) && l.p == w ==> CallLeft(r.producers[w]) < CallLeft(q.producers[w]))
  {
    if Queue.ProducerLabel(l) {
      hide Sum, Queue.LockInv;
      if l.TrySend? {
        Queue.SeenOpenChannelOpen(q, l.p);
      }
    } else {
      CloserSparesProducers(q, l);
    }
  }

  /** The writer flag is read off the one closer. */
  lemma WriterShows(s: Server)
    requires Good(s)
    ensures |s.queue.closers| == 1 && (s.queue.writer <==> Queue.HasWriter(s.queue.closers[0]))
  {
    OneCloser(s);
    InvHasLock(s);
    OneWriter(s.queue);
  }

  lemma TellingGoesOn(s: Server, m: Move, w: nat)
    requires Good(s) && Enabled(s, m) && w < |s.queue.producers| && m != TellingEnds(w)
    ensures var t := Next(s, m);
            && w < |t.queue.producers|
            && TellingLeft(t, w) <= TellingLeft(s, w)
            && (TellingLeft(t, w) == TellingLeft(s, w) ==>
              && WaitLeft(t) <= WaitLeft(s)
              && (WaitLeft(t) == WaitLeft(s) ==> TellingMove(t, w) == TellingMove(s, w)))
  {
    WriterShows(s);
    InvHasLock(s);
    GoodKept(s, m);
    WriterShows(Next(s, m));
    LockGoesOn(s, m);
    QueueOf(s, m);
    hide Good, Enabled, Next, ReadersLeft, LockLabel, Queue.LockInv, Queue.Next, Queue.Enabled, TellingMove;
    if QueueLabel(s, m).Some? {
      CallGoesOn(s.queue, QueueLabel(s, m).value, w);
    }
    if TellingLeft(Next(s, m), w) == TellingLeft(s, w) {
      SameTellingMove(s, Next(s, m), w);
    }
  }

  lemma SameTellingMove(s: Server, t: Server, w: nat)
    requires |s.queue.closers| == |t.queue.closers| == 1 && w < |s.queue.producers| && w < |t.queue.producers|
    requires s.queue.writer <==> Queue.HasWriter(s.queue.closers[0])
    requires t.queue.writer <==> Queue.HasWriter(t.queue.closers[0])
    requires CloserLeft(s.queue.closers[0]) == CloserLeft(t.queue.closers[0])
    requires CallLeft(s.queue.producers[w]) == CallLeft(t.queue.producers[w])
    ensures !s.queue.closers[0].Announced? || LockLabel(t.queue) == LockLabel(s.queue) ==>
      TellingMove(t, w) == TellingMove(s, w)
  {
    hide FirstInside;
  }

  lemma TellingMoveWorks(s: Server, w: nat)
    requires Good(s) && Alert(s.daemon, w).Some?
    ensures w < |s.queue.producers|
    ensures Enabled(s, TellingMove(s, w)) && Own(TellingMove(s, w))
    ensures var m, t := TellingMove(s, w), Next(s, TellingMove(s, w));
            m == TellingEnds(w) || TellingLeft(t, w) < TellingLeft(s, w)
            || (TellingLeft(t, w) == TellingLeft(s, w) && WaitLeft(t) < WaitLeft(s))
  {
    AlertHasProducer(s, w);
    WriterShows(s);
    InvHasLock(s);
    AlertCanBeTold(s.daemon, w);
    hide Good, Queue.LockInv, FirstInside, LockLabel, Alert, CanHappen, Happen, ReadersLeft;
    var m := TellingMove(s, w);
    if s.queue.producers[w].Wanting? && s.queue.writer {
      LockMoveEnabled(s);
      LockMoveSpares(s, w);
    } else {
      OwnCallStep(s, w);
    }
  }

  lemma LockMoveSpares(s: Server, w: nat)
    requires Good(s) && |s.queue.closers| == 1 && w < |s.queue.producers| && s.queue.producers[w].Wanting?
    requires s.queue.writer && Enabled(s, MoveOf(LockLabel(s.queue)))
    requires Nearer(s.queue, Next(s, MoveOf(LockLabel(s.queue))).queue)
    ensures var t := Next(s, MoveOf(LockLabel(s.queue)));
            TellingLeft(t, w) < TellingLeft(s, w)
            || (TellingLeft(t, w) == TellingLeft(s, w) && WaitLeft(t) < WaitLeft(s))
  {
    InvHasLock(s);
    WriterShows(s);
    var m := MoveOf(LockLabel(s.queue));
    LockLabelEnabled(s.queue);
    QueueOf(s, m);
    NotLeaving(s.queue, LockLabel(s.queue), w);
    CallGoesOn(s.queue, LockLabel(s.queue), w);
    hide Good, Enabled, Next, ReadersLeft, LockLabel, Queue.LockInv, Queue.Next, Queue.Enabled;
  }

  lemma NotLeaving(q: Queue.AsyncState, l: Queue.Label, w: nat)
    requires w < |q.producers| && q.producers[w].Wanting? && Queue.Enabled(q, l)
    ensures l != Queue.Leave(w)
  {
  }

  lemma OwnCallEnabled(s: Server, w: nat)
    requires w < |s.queue.producers| && Alert(s.daemon, w).Some?
    requires CanHappen(s.daemon, BatchStep(Batch.StageDone(w)))
    requires !(s.queue.producers[w].Wanting? && s.queue.writer)
    ensures var m := TellingMove(s, w);
            && Enabled(s, m) && Own(m) && (m == TellingEnds(w) || QueueLabel(s, m).Some?)
            && (QueueLabel(s, m).Some? ==> Queue.ProducerLabel(QueueLabel(s, m).value) && QueueLabel(s, m).value.p == w)
            && (m != TellingEnds(w) ==> QueueLabel(s, m).value != Queue.Leave(w))
  {
    hide Alert, CanHappen, LockLabel;
  }

  lemma OwnCallStep(s: Server, w: nat)
    requires Good(s) && |s.queue.closers| == 1 && w < |s.queue.producers| && Alert(s.daemon, w).Some?
    requires CanHappen(s.daemon, BatchStep(Batch.StageDone(w)))
    requires !(s.queue.producers[w].Wanting? && s.queue.writer)
    ensures Enabled(s, TellingMove(s, w)) && Own(TellingMove(s, w))
    ensures TellingMove(s, w) == TellingEnds(w) || TellingLeft(Next(s, TellingMove(s, w)), w) < TellingLeft(s, w)
  {
    InvHasLock(s);
    OwnCallEnabled(s, w);
    hide Good, Queue.LockInv, LockLabel, Alert, CanHappen, ReadersLeft, Queue.Next, Queue.Enabled, Enabled, Next;
    var m := TellingMove(s, w);
    QueueOf(s, m);
    if m != TellingEnds(w) {
      LockGoesOn(s, m);
      CallGoesOn(s.queue, QueueLabel(s, m).value, w);
    }
  }

  /** In every fair run a worker with an alert finishes handing it over, whatever else happens, and
      though the delivery worker may be stuck in a provider for ever: probing never waits on alerting. */
  lemma FairRunsTell(run: nat -> Server, moves: nat -> Move, w: nat) returns (k: nat)
    requires Executes(run, moves) && Fair(run, moves) && Alert(run(0).daemon, w).Some?
    ensures moves(k) == TellingEnds(w) && Alert(run(k).daemon, w) == Alert(run(0).daemon, w)
  {
    hide Good, Enabled, Next, TellingMove, TellingLeft, WaitLeft, Fair, Alert;
    var a, b := (k: nat) => TellingLeft(run(k), w), (k: nat) => WaitLeft(run(k));
    var choice := (k: nat) => TellingMove(run(k), w);
    var open := (k: nat) => forall j: nat :: j < k ==> moves(j) != TellingEnds(w);
    forall k: nat | open(k) ensures DescentAt(run, moves, a, b, choice, open, k) {
      AlwaysGood(run, moves, k);
      AlertUntilTold(run, moves, w, k);
      assert StepAt(run, moves, k);
      TellingMoveWorks(run(k), w);
      if moves(k) != TellingEnds(w) {
        TellingGoesOn(run(k), moves(k), w);
      }
    }
    k := Ends(run, moves, a, b, choice, open, 0);
    k := FirstTold(run, moves, w, k);
  }

  lemma {:induction false} AlertUntilTold(run: nat -> Server, moves: nat -> Move, w: nat, k: nat)
    requires Executes(run, moves) && Alert(run(0).daemon, w).Some?
    requires forall j: nat :: j < k ==> moves(j) != TellingEnds(w)
    ensures Alert(run(k).daemon, w) == Alert(run(0).daemon, w)
  {
    hide Good, Enabled, Next, Alert;
    if k > 0 {
      AlertUntilTold(run, moves, w, k - 1);
      AlwaysGood(run, moves, k - 1);
      assert StepAt(run, moves, k - 1);
      AlertRemains(run(k - 1), moves(k - 1), w);
    }
  }

  lemma {:induction false} FirstTold(run: nat -> Server, moves: nat -> Move, w: nat, n: nat) returns (k: nat)
    requires Executes(run, moves) && Alert(run(0).daemon, w).Some?
    requires exists j: nat :: j < n && moves(j) == TellingEnds(w)
    ensures moves(k) == TellingEnds(w) && Alert(run(k).daemon, w) == Alert(run(0).daemon, w)
  {
    hide Executes, Alert;
    if j: nat :| j < n - 1 && moves(j) == TellingEnds(w) {
      k := FirstTold(run, moves, w, n - 1);
    } else {
      k := n - 1;
      AlertUntilTold(run, moves, w, k);
    }
  }
}
