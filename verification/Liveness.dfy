/** Nobody waits for the providers: probing goes on and shutdown ends without a single delivery. */
module Liveness {
  import opened Monitoring
  import opened Sequences
  import opened Agreement
  import opened Shutdown
  import Batch = ProbeBatch
  import Queue = AsyncQueue

  /** A move that is no step of the delivery worker, which may be stuck in a provider for ever. */
  predicate Quick(m: Move) {
    !(m.InQueue? && Queue.WorkerLabel(m.step))
  }

  ghost predicate LeadsQuick(s: Server, t: Server) {
    exists ms :: Run(s, ms) == Some(t) && forall i :: 0 <= i < |ms| ==> Quick(ms[i])
  }

  lemma Nowhere(s: Server)
    ensures LeadsQuick(s, s)
  {
    assert Run(s, []) == Some(s);
  }

  lemma Onward(s: Server, t: Server, m: Move)
    requires LeadsQuick(s, t) && Enabled(t, m) && Quick(m)
    ensures LeadsQuick(s, Next(t, m))
  {
    hide Enabled, Next, Quick;
    var ms :| Run(s, ms) == Some(t) && forall i :: 0 <= i < |ms| ==> Quick(ms[i]);
    assert (ms + [m])[..|ms|] == ms;
    assert Run(s, ms + [m]) == Some(Next(t, m));
  }

  ghost predicate Good(s: Server) {
    Queue.Inv(s.queue) && Linked(s) && Ordered(s)
  }

  lemma GoodKept(s: Server, m: Move)
    requires Good(s) && Enabled(s, m)
    ensures Good(Next(s, m))
  {
    hide Queue.Inv, Linked, Ordered, Enabled, Next;
    QueueInvKept(s, m);
    PoolSized(s);
    OrderedKept(s, m);
    LinkedKept(s, m);
  }

  lemma AlertCanBeTold(d: Daemon, w: nat)
    requires Alert(d, w).Some?
    ensures CanHappen(d, BatchStep(Batch.StageDone(w)))
  {
  }

  /** The part of the state a caller's step leaves alone. */
  ghost predicate Kept(s: Server, t: Server) {
    && t.main == s.main && t.daemon.cancelled == s.daemon.cancelled
    && |t.queue.closers| == |s.queue.closers| == 1
    && (!s.queue.closers[0].Calm? ==> !t.queue.closers[0].Calm?)
  }

  lemma CallerStep(s: Server, l: Queue.Label) returns (m: Move)
    requires Good(s) && Queue.InsideCallLabel(l) && Queue.Enabled(s.queue, l)
    ensures m == (if l.Leave? then TellingEnds(l.p) else InQueue(l))
    ensures Enabled(s, m) && Quick(m) && Next(s, m).queue == Queue.Next(s.queue, l) && Kept(s, Next(s, m))
  {
    hide Queue.Inv, Alert, CanHappen, Carries, BatchSound, Queue.Next, Queue.Enabled, Happen;
    CallerKeepsClosers(s.queue, l);
    if l.Leave? {
      LeaverHasAlert(s, l.p);
      AlertCanBeTold(s.daemon, l.p);
      m := TellingEnds(l.p);
      StageKeepsCancelled(s.daemon, l.p);
    } else {
      m := InQueue(l);
    }
  }

  lemma LeaverHasAlert(s: Server, p: nat)
    requires Good(s) && Queue.Enabled(s.queue, Queue.Leave(p))
    ensures Alert(s.daemon, p).Some?
  {
    hide Queue.Inv, Alert, Carries, BatchSound, Ordered;
  }

  lemma CallerKeepsClosers(q: Queue.AsyncState, l: Queue.Label)
    requires Queue.InsideCallLabel(l) && Queue.Enabled(q, l)
    ensures |Queue.Next(q, l).closers| == |q.closers|
    ensures forall c :: 0 <= c < |q.closers| && !q.closers[c].Calm? ==> !Queue.Next(q, l).closers[c].Calm?
  {
  }

  lemma StageKeepsCancelled(d: Daemon, w: nat)
    requires CanHappen(d, BatchStep(Batch.StageDone(w)))
    ensures Happen(d, BatchStep(Batch.StageDone(w))).cancelled == d.cancelled
  {
  }

  /** Everybody inside `Notify` or inside the locked part of `Close` gets out, worker or no worker. */
  lemma {:induction false} Settle(b: Server, s: Server) returns (t: Server)
    requires LeadsQuick(b, s) && Good(s)
    ensures LeadsQuick(b, t) && Good(t) && Queue.CallerWork(t.queue) == 0 && Kept(s, t)
    decreases Queue.CallerWork(s.queue)
  {
    hide LeadsQuick, Queue.Inv, Linked, Enabled, Next, Queue.CallerWork, Queue.LockInv, Queue.DataInv;
    if Queue.CallerWork(s.queue) == 0 {
      t := s;
    } else {
      InvHasLock(s);
      var l := Queue.CallerCanStep(s.queue);
      Queue.InsideCallStepsShrink(s.queue, l);
      var m := CallerStep(s, l);
      GoodKept(s, m);
      Onward(b, s, m);
      t := Settle(b, Next(s, m));
    }
  }

  lemma InvHasLock(s: Server)
    requires Good(s)
    ensures Queue.LockInv(s.queue)
  {
  }

  // ---------- after the signal ----------

  lemma {:induction false} ReachDraining(b: Server, s: Server) returns (t: Server)
    requires LeadsQuick(b, s) && Good(s) && s.daemon.cancelled
    ensures LeadsQuick(b, t) && Good(t) && Rank(t.main) >= Rank(Draining)
    decreases 6 - Rank(s.main)
  {
    hide LeadsQuick, Good;
    if Rank(s.main) >= Rank(Draining) {
      t := s;
    } else {
      var m := if s.main.Serving? then BeginShutdown else WaitTimesOut;
      GoodKept(s, m);
      Onward(b, s, m);
      t := ReachDraining(b, Next(s, m));
    }
  }

  /** With nobody in the locked part, the closer is before it or behind it and the lock is free. */
  lemma SettledCloser(s: Server)
    requires Good(s) && Queue.CallerWork(s.queue) == 0
    ensures var c := s.queue.closers[0];
            (c.Calm? && !s.queue.writer) || c.Awaiting? || c.Returned?
  {
    hide Linked, Queue.DataInv, Sum;
    var c := s.queue.closers[0];
    SumAtLeast(s.queue.closers, 0, Queue.CloserWork);
    if c.Calm? && s.queue.writer {
      var k := PositiveElement(s.queue.closers, Queue.WriterWeight);
    }
  }

  lemma CloseQueue(b: Server, s: Server) returns (t: Server)
    requires LeadsQuick(b, s) && Good(s) && s.main.Draining?
    ensures LeadsQuick(b, t) && t.main.Draining?
    ensures |t.queue.closers| > 0 && t.queue.closers[0].Returned?
  {
    hide LeadsQuick, Good, Queue.CallerWork;
    var u := Settle(b, s);
    SettledCloser(u);
    if u.queue.closers[0].Calm? {
      Onward(b, u, InQueue(Queue.Announce(0)));
      GoodKept(u, InQueue(Queue.Announce(0)));
      u := Settle(b, Next(u, InQueue(Queue.Announce(0))));
      SettledCloser(u);
    }
    if u.queue.closers[0].Awaiting? {
      Onward(b, u, InQueue(Queue.GiveUp(0)));
      t := Next(u, InQueue(Queue.GiveUp(0)));
    } else {
      t := u;
    }
  }

  /** From every state the daemon can reach once the signal has come, `run` can still get to its
      end, whatever the workers are doing, by moves none of which is a delivery. */
  lemma SignalLeadsToDone(pool: nat, now: Time, capacity: nat, children: nat, ms: seq<Move>) returns (t: Server)
    requires Run(Boot(pool, now, capacity, children), ms).Some?
    requires Run(Boot(pool, now, capacity, children), ms).value.daemon.cancelled
    ensures LeadsQuick(Run(Boot(pool, now, capacity, children), ms).value, t) && t.main.Done?
  {
    hide LeadsQuick, Boot, Run, Good;
    var b := Run(Boot(pool, now, capacity, children), ms).value;
    ReachableIsGood(pool, now, capacity, children, ms);
    Nowhere(b);
    var s := ReachDraining(b, b);
    if s.main.Draining? {
      s := CloseQueue(b, s);
    }
    t := LastMoves(b, s);
  }

  lemma ReachableIsGood(pool: nat, now: Time, capacity: nat, children: nat, ms: seq<Move>)
    requires Run(Boot(pool, now, capacity, children), ms).Some?
    ensures Good(Run(Boot(pool, now, capacity, children), ms).value)
  {
    hide Boot, Run, Queue.Inv, Linked, Ordered, Booked, NoneRefused;
    RunSound(pool, now, capacity, children, ms, "");
  }

  lemma LastMoves(b: Server, s: Server) returns (t: Server)
    requires LeadsQuick(b, s) && Rank(s.main) >= Rank(Draining)
    requires s.main.Draining? ==> |s.queue.closers| > 0 && s.queue.closers[0].Returned?
    ensures LeadsQuick(b, t) && t.main.Done?
  {
    hide LeadsQuick;
    t := s;
    if t.main.Draining? {
      Onward(b, t, DrainReturns);
      t := Next(t, DrainReturns);
    }
    if t.main.ClosingStore? {
      Onward(b, t, CloseStore);
      t := Next(t, CloseStore);
    }
  }

  // ---------- while probing ----------

  /** A worker inside `Notify` gets to its end, its alert still the same. */
  lemma {:induction false} CallReturns(b: Server, s: Server, w: nat) returns (t: Server)
    requires LeadsQuick(b, s) && Good(s) && w < |s.queue.producers| && !s.queue.producers[w].Idle?
    ensures LeadsQuick(b, t) && Good(t) && |t.queue.producers| == |s.queue.producers|
    ensures t.queue.producers[w].Leaving? && Alert(t.daemon, w) == Alert(s.daemon, w)
    decreases Queue.CallerWork(s.queue)
  {
    hide LeadsQuick, Good, Alert, Enabled, Queue.CallerWork, Queue.LockInv, Queue.Next, Queue.Enabled;
    if s.queue.producers[w].Leaving? {
      t := s;
    } else {
      InvHasLock(s);
      CallerHasWork(s.queue, w);
      var l := Queue.CallerCanStep(s.queue);
      Queue.InsideCallStepsShrink(s.queue, l);
      var m := CallerStep(s, l);
      StillInside(s, l, m, w);
      GoodKept(s, m);
      Onward(b, s, m);
      t := CallReturns(b, Next(s, m), w);
    }
  }

  lemma CallerHasWork(q: Queue.AsyncState, w: nat)
    requires w < |q.producers| && !q.producers[w].Idle?
    ensures Queue.CallerWork(q) > 0
  {
    SumAtLeast(q.producers, w, Queue.ProducerWork);
  }

  lemma StillInside(s: Server, l: Queue.Label, m: Move, w: nat)
    requires Good(s) && Queue.InsideCallLabel(l) && Queue.Enabled(s.queue, l)
    requires m == (if l.Leave? then TellingEnds(l.p) else InQueue(l)) && Enabled(s, m)
    requires Next(s, m).queue == Queue.Next(s.queue, l)
    requires w < |s.queue.producers| && !s.queue.producers[w].Idle? && !s.queue.producers[w].Leaving?
    ensures |Next(s, m).queue.producers| == |s.queue.producers| && !Next(s, m).queue.producers[w].Idle?
    ensures Alert(Next(s, m).daemon, w) == Alert(s.daemon, w)
  {
    hide Good, Alert, Happen, CanHappen, Queue.Next, Queue.Enabled;
    CallerStaysInside(s.queue, l, w);
    if l.Leave? {
      InsiderHasAlert(s, w);
      OtherAlertStays(s, l.p, w);
    }
  }

  lemma CallerStaysInside(q: Queue.AsyncState, l: Queue.Label, w: nat)
    requires Queue.InsideCallLabel(l) && Queue.Enabled(q, l)
    requires w < |q.producers| && !q.producers[w].Idle? && !q.producers[w].Leaving?
    ensures |Queue.Next(q, l).producers| == |q.producers| && !Queue.Next(q, l).producers[w].Idle?
    ensures l.Leave? ==> l.p != w
  {
    hide Queue.Next, Queue.Enabled, Queue.InsideCallLabel;
    if Queue.ProducerLabel(l) {
      ProducerMovesOn(q, l);
    } else {
      CloserSparesProducers(q, l);
    }
  }

  lemma ProducerMovesOn(q: Queue.AsyncState, l: Queue.Label)
    requires Queue.InsideCallLabel(l) && Queue.Enabled(q, l) && Queue.ProducerLabel(l)
    ensures l.p < |q.producers| && |Queue.Next(q, l).producers| == |q.producers|
    ensures Queue.Next(q, l).producers == q.producers[l.p := Queue.Next(q, l).producers[l.p]]
    ensures l.Leave? <==> Queue.Next(q, l).producers[l.p].Idle?
    ensures l.Leave? <==> q.producers[l.p].Leaving?
  {
  }

  lemma CloserSparesProducers(q: Queue.AsyncState, l: Queue.Label)
    requires Queue.Enabled(q, l) && !Queue.ProducerLabel(l)
    ensures Queue.Next(q, l).producers == q.producers
  {
  }

  lemma InsiderHasAlert(s: Server, w: nat)
    requires Good(s) && w < |s.queue.producers| && !s.queue.producers[w].Idle?
    ensures Alert(s.daemon, w).Some? && Linked(s)
  {
    hide Queue.Inv, Alert, Carries, BatchSound, Ordered;
  }

  /** Probing never waits on alerting: from every reachable state, a worker with an alert to tell can
      get past `Notify`, still with that alert, by moves none of which is a delivery. */
  lemma ProbingNeverWaits(pool: nat, now: Time, capacity: nat, children: nat, ms: seq<Move>, w: nat) returns (t: Server)
    requires Run(Boot(pool, now, capacity, children), ms).Some?
    requires Alert(Run(Boot(pool, now, capacity, children), ms).value.daemon, w).Some?
    ensures var s := Run(Boot(pool, now, capacity, children), ms).value;
            && LeadsQuick(s, t) && Alert(t.daemon, w) == Alert(s.daemon, w)
            && Enabled(t, TellingEnds(w))
  {
    hide LeadsQuick, Boot, Run, Good, Alert, CanHappen;
    var b := Run(Boot(pool, now, capacity, children), ms).value;
    ReachableIsGood(pool, now, capacity, children, ms);
    Nowhere(b);
    var s := CallBegins(b, w);
    t := CallReturns(b, s, w);
    AlertCanBeTold(t.daemon, w);
  }

  lemma CallBegins(b: Server, w: nat) returns (s: Server)
    requires LeadsQuick(b, b) && Good(b) && Alert(b.daemon, w).Some?
    ensures LeadsQuick(b, s) && Good(s) && w < |s.queue.producers| && !s.queue.producers[w].Idle?
    ensures s.daemon == b.daemon
  {
    hide LeadsQuick, Good;
    AlertHasProducer(b, w);
    hide Alert;
    s := b;
    if s.queue.producers[w].Idle? {
      Onward(b, s, Tells(w));
      GoodKept(s, Tells(w));
      s := Next(s, Tells(w));
    }
  }

  lemma AlertHasProducer(s: Server, w: nat)
    requires Good(s) && Alert(s.daemon, w).Some?
    ensures w < |s.queue.producers|
  {
    hide Queue.Inv, Ordered, BatchSound;
  }
}
