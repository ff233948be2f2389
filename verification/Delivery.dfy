/** From what was observed to what the providers received, over whole runs of the server. */
module Delivery {
  import opened Monitoring
  import opened Sequences
  import opened Probe
  import opened Agreement
  import opened Shutdown
  import Firings
  import Batch = ProbeBatch
  import Queue = AsyncQueue

  /** What a move of the server means for the daemon inside. */
  function EventsOf(s: Server, m: Move): seq<Happening>
    requires Enabled(s, m)
  {
    match m
    case Scheduler(e) => [e]
    case Signal => [Happening.Cancel]
    case Sweep(t) => [Prune(t)]
    case Reload(ms) => [Sync(ms)]
    case TellingEnds(w) => [BatchStep(Batch.StageDone(w))]
    case _ => []
  }

  function LifeOf(s: Server, ms: seq<Move>): seq<Happening>
    requires Run(s, ms).Some?
  {
    if ms == [] then []
    else LifeOf(s, ms[..|ms| - 1]) + EventsOf(Run(s, ms[..|ms| - 1]).value, ms[|ms| - 1])
  }

  lemma MoveLives(s: Server, m: Move)
    requires Enabled(s, m)
    ensures |EventsOf(s, m)| <= 1
    ensures Next(s, m).daemon ==
      if EventsOf(s, m) == [] then s.daemon
      else if CanHappen(s.daemon, EventsOf(s, m)[0]) then Happen(s.daemon, EventsOf(s, m)[0]) else s.daemon
    ensures EventsOf(s, m) != [] ==> CanHappen(s.daemon, EventsOf(s, m)[0])
  {
    hide Alert, Queue.Enabled, Happen;
  }

  /** The daemon inside a run of the server leads a life: all that holds of lives holds of it. */
  lemma {:induction false} ServerLives(pool: nat, now: Time, capacity: nat, children: nat, ms: seq<Move>)
    requires Run(Boot(pool, now, capacity, children), ms).Some?
    ensures var b := Boot(pool, now, capacity, children);
            Life(Fresh(pool, now), LifeOf(b, ms)) == Some(Run(b, ms).value.daemon)
  {
    if ms != [] {
      hide Boot, Enabled, Next, CanHappen, Happen, EventsOf;
      var b, n := Boot(pool, now, capacity, children), |ms| - 1;
      ServerLives(pool, now, capacity, children, ms[..n]);
      var es, last := LifeOf(b, ms[..n]), EventsOf(Run(b, ms[..n]).value, ms[n]);
      MoveLives(Run(b, ms[..n]).value, ms[n]);
      if last == [] {
        assert es + last == es;
      } else {
        assert (es + last)[..|es + last| - 1] == es && (es + last)[|es|] == last[0];
      }
    } else {
      assert Boot(pool, now, capacity, children).daemon == Fresh(pool, now);
    }
  }

  /** From probe to provider: once the store is closed, with the scheduler not left behind, the alerts
      about each monitor that were offered to the queue are exactly the firings of its trackers over
      everything observed of it, in order; none was refused as closed; and after a finished drain
      every child has received, in order, all offered alerts but those the full queue refused. */
  lemma FromProbeToProvider(pool: nat, now: Time, capacity: nat, children: nat, ms: seq<Move>, n: string)
    requires Run(Boot(pool, now, capacity, children), ms).Some?
    ensures var t := Run(Boot(pool, now, capacity, children), ms).value;
            StoreClosed(t) && !t.overstayed.scheduler ==>
              && Filter(Offered(t.queue.calls), About(n)) == Firings.FiringsOf(Seen(t.daemon.observed, n))
              && !Refusing(t)
              && (t.queue.closers == [Queue.Returned(true)] ==>
                forall k :: 0 <= k < |t.queue.children| ==>
                  t.queue.children[k] == Queue.AcceptedEvents(t.queue.calls))
  {
    hide Boot, Run, Life, LifeOf, Refusing, Queue.Inv, Linked, Booked, NoneRefused, Firings.FiringsOf;
    var b := Boot(pool, now, capacity, children);
    var t := Run(b, ms).value;
    ShutdownEndToEnd(pool, now, capacity, children, ms, n);
    RunSound(pool, now, capacity, children, ms, n);
    ServerLives(pool, now, capacity, children, ms);
    Firings.AlertsAreFirings(pool, now, LifeOf(b, ms), n);
    if StoreClosed(t) && !t.overstayed.scheduler {
      NoJob(t.daemon.phase, n);
    }
  }
}
