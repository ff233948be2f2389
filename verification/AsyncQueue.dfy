/** The asynchronous alert queue as a protocol: any number of Notify and Close calls run against one
    delivery worker, one atomic action at a time. The read-write lock and the test-then-send of
    `Notify` are separate actions, so that what they guarantee has to be proved. */
module AsyncQueue {
  import opened Monitoring
  import opened Sequences
  import opened Notify

  datatype Outcome = Accepted | Full | Closed

  datatype Call = Call(caller: nat, event: Event, outcome: Outcome)

  /** A goroutine inside or outside `Notify`; between Entered and Leaving it holds the read lock. */
  datatype Producer =
    | Idle
    | Wanting(event: Event)
    | Entered(event: Event)
    | SawOpen(event: Event)
    | Leaving

  /** A goroutine inside or outside `Close`; a writer that has announced itself already keeps new
      readers out, and from Holding to Releasing it owns the lock alone. */
  datatype Closer =
    | Calm
    | Announced
    | Holding
    | Marked
    | Releasing
    | Awaiting
    | Returned(drained: bool)

  /** The delivery worker; while delivering, the first `upTo` children have the event. */
  datatype Worker = Receiving | Delivering(event: Event, upTo: nat) | Exited

  datatype AsyncState = AsyncState(
    capacity: nat,
    readers: int,
    writer: bool,
    closed: bool,
    channelClosed: bool,
    panicked: bool,
    queue: seq<Event>,
    producers: seq<Producer>,
    closers: seq<Closer>,
    worker: Worker,
    delivered: seq<Event>,
    children: seq<seq<Event>>,
    calls: seq<Call>
  )

  function Initial(capacity: nat, producers: nat, closers: nat, children: nat): AsyncState {
    AsyncState(capacity, 0, false, false, false, false, [], seq(producers, _ => Idle), seq(closers, _ => Calm),
          Receiving, [], seq(children, _ => []), [])
  }

  datatype Label =
    | CallNotify(p: nat, event: Event)
    | Enter(p: nat)
    | CheckClosed(p: nat)
    | TrySend(p: nat)
    | HandOver(p: nat)
    | Leave(p: nat)
    | Announce(c: nat)
    | Acquire(c: nat)
    | MarkClosed(c: nat)
    | CloseChannel(c: nat)
    | Release(c: nat)
    | SeeDrained(c: nat)
    | GiveUp(c: nat)
    | Receive
    | ToChild
    | Finish
    | Exit

  predicate Inside(p: Producer) {
    p.Entered? || p.SawOpen? || p.Leaving?
  }

  predicate HasWriter(c: Closer) {
    c.Announced? || c.Holding? || c.Marked? || c.Releasing?
  }

  predicate Exclusive(c: Closer) {
    c.Holding? || c.Marked? || c.Releasing?
  }

  function Move(s: AsyncState, p: nat, to: Producer): AsyncState
    requires p < |s.producers|
  {
    s.(producers := s.producers[p := to])
  }

  function MoveCloser(s: AsyncState, c: nat, to: Closer): AsyncState
    requires c < |s.closers|
  {
    s.(closers := s.closers[c := to])
  }

  predicate Enabled(s: AsyncState, l: Label) {
    match l
    case CallNotify(p, e) => p < |s.producers| && s.producers[p].Idle?
    case Enter(p) => p < |s.producers| && s.producers[p].Wanting? && !s.writer
    case CheckClosed(p) => p < |s.producers| && s.producers[p].Entered?
    case TrySend(p) => p < |s.producers| && s.producers[p].SawOpen?
    case HandOver(p) =>
      p < |s.producers| && s.producers[p].SawOpen? && !s.channelClosed && s.queue == [] && s.worker.Receiving?
    case Leave(p) => p < |s.producers| && s.producers[p].Leaving?
    case Announce(c) => c < |s.closers| && s.closers[c].Calm? && !s.writer
    case Acquire(c) => c < |s.closers| && s.closers[c].Announced? && s.readers == 0
    case MarkClosed(c) => c < |s.closers| && s.closers[c].Holding?
    case CloseChannel(c) => c < |s.closers| && s.closers[c].Marked?
    case Release(c) => c < |s.closers| && s.closers[c].Releasing?
    case SeeDrained(c) => c < |s.closers| && s.closers[c].Awaiting? && s.worker.Exited?
    case GiveUp(c) => c < |s.closers| && s.closers[c].Awaiting?
    case Receive => s.worker.Receiving? && s.queue != []
    case ToChild => s.worker.Delivering? && s.worker.upTo < |s.children|
    case Finish => s.worker.Delivering? && s.worker.upTo >= |s.children|
    case Exit => s.worker.Receiving? && s.queue == [] && s.channelClosed
  }

  function Next(s: AsyncState, l: Label): AsyncState
    requires Enabled(s, l)
  {
    match l
    case CallNotify(p, e) => Move(s, p, Wanting(e))
    case Enter(p) => Move(s, p, Entered(s.producers[p].event)).(readers := s.readers + 1)
    case CheckClosed(p) =>
      var e := s.producers[p].event;
      if s.closed then Move(s, p, Leaving).(calls := s.calls + [Call(p, e, Closed)])
      else Move(s, p, SawOpen(e))
    case TrySend(p) =>
      var e := s.producers[p].event;
      if s.channelClosed then s.(panicked := true)
      else if |s.queue| < s.capacity then
        Move(s, p, Leaving).(queue := s.queue + [e], calls := s.calls + [Call(p, e, Accepted)])
      else Move(s, p, Leaving).(calls := s.calls + [Call(p, e, Full)])
    case HandOver(p) =>
      var e := s.producers[p].event;
      Move(s, p, Leaving).(worker := Delivering(e, 0), calls := s.calls + [Call(p, e, Accepted)])
    case Leave(p) => Move(s, p, Idle).(readers := s.readers - 1)
    case Announce(c) => MoveCloser(s, c, Announced).(writer := true)
    case Acquire(c) => MoveCloser(s, c, Holding)
    case MarkClosed(c) =>
      if s.closed then MoveCloser(s, c, Releasing) else MoveCloser(s, c, Marked).(closed := true)
    case CloseChannel(c) =>
      if s.channelClosed then s.(panicked := true)
      else MoveCloser(s, c, Releasing).(channelClosed := true)
    case Release(c) => MoveCloser(s, c, Awaiting).(writer := false)
    case SeeDrained(c) => MoveCloser(s, c, Returned(true))
    case GiveUp(c) => MoveCloser(s, c, Returned(false))
    case Receive => s.(worker := Delivering(s.queue[0], 0), queue := s.queue[1..])
    case ToChild =>
      var k := s.worker.upTo;
      s.(worker := s.worker.(upTo := k + 1), children := s.children[k := s.children[k] + [s.worker.event]])
    case Finish => s.(worker := Receiving, delivered := s.delivered + [s.worker.event])
    case Exit => s.(worker := Exited)
  }

  /** The state after executing `ls` from `s`, if every action was enabled in its turn. */
  function Run(s: AsyncState, ls: seq<Label>): Option<AsyncState> {
    if ls == [] then Some(s)
    else
      match Run(s, ls[..|ls| - 1])
      case None => None
      case Some(m) => if Enabled(m, ls[|ls| - 1]) then Some(Next(m, ls[|ls| - 1])) else None
  }

  // ---------- what every step keeps ----------

  function InsideWeight(p: Producer): nat {
    if Inside(p) then 1 else 0
  }

  function WriterWeight(c: Closer): nat {
    if HasWriter(c) then 1 else 0
  }

  function MarkedWeight(c: Closer): nat {
    if c.Marked? then 1 else 0
  }

  function AcceptedEvents(calls: seq<Call>): seq<Event> {
    if calls == [] then []
    else
      var c := calls[|calls| - 1];
      AcceptedEvents(calls[..|calls| - 1]) + (if c.outcome == Accepted then [c.event] else [])
  }

  function InFlight(w: Worker): seq<Event> {
    if w.Delivering? then [w.event] else []
  }

  /** Exactly one closer holds or awaits the lock while the writer flag is up, and it is the one in
      between marking the queue closed and closing the channel. */
  ghost predicate WritersCounted(closers: seq<Closer>, writer: bool, closed: bool, channelClosed: bool) {
    && Sum(closers, WriterWeight) == (if writer then 1 else 0)
    && Sum(closers, MarkedWeight) == (if closed && !channelClosed then 1 else 0)
    && (channelClosed ==> closed)
  }

  ghost predicate ReadersExcluded(closers: seq<Closer>, readers: int) {
    forall c :: 0 <= c < |closers| && Exclusive(closers[c]) ==> readers == 0
  }

  ghost predicate OpenAsSeen(producers: seq<Producer>, closed: bool) {
    forall p :: 0 <= p < |producers| && producers[p].SawOpen? ==> !closed
  }

  /** The lock counts its holders, and exclusive access excludes readers. */
  ghost predicate LockInv(s: AsyncState) {
    && s.readers == Sum(s.producers, InsideWeight)
    && WritersCounted(s.closers, s.writer, s.closed, s.channelClosed)
    && ReadersExcluded(s.closers, s.readers)
    && OpenAsSeen(s.producers, s.closed)
    && !s.panicked
  }

  /** Every child has what was delivered, and the first ones already have the event in flight. */
  ghost predicate Spread(children: seq<seq<Event>>, delivered: seq<Event>, worker: Worker) {
    && (worker.Delivering? ==> worker.upTo <= |children|)
    && (forall k :: 0 <= k < |children| ==>
      children[k] == delivered + (if worker.Delivering? && k < worker.upTo then [worker.event] else []))
  }

  ghost predicate DrainSeen(worker: Worker, channelClosed: bool, queue: seq<Event>, closers: seq<Closer>) {
    && (worker.Exited? ==> channelClosed && queue == [])
    && (forall c :: 0 <= c < |closers| && closers[c] == Returned(true) ==> worker.Exited?)
  }

  ghost predicate RefusedOnlyWhenClosed(calls: seq<Call>, closed: bool) {
    forall i :: 0 <= i < |calls| && calls[i].outcome == Closed ==> closed
  }

  /** Nothing accepted is lost, duplicated or reordered. */
  ghost predicate DataInv(s: AsyncState) {
    && AcceptedEvents(s.calls) == s.delivered + InFlight(s.worker) + s.queue
    && |s.queue| <= s.capacity
    && Spread(s.children, s.delivered, s.worker)
    && DrainSeen(s.worker, s.channelClosed, s.queue, s.closers)
    && RefusedOnlyWhenClosed(s.calls, s.closed)
  }

  ghost predicate Inv(s: AsyncState) {
    LockInv(s) && DataInv(s)
  }

  lemma InitialInv(capacity: nat, producers: nat, closers: nat, children: nat)
    ensures Inv(Initial(capacity, producers, closers, children))
  {
    var s := Initial(capacity, producers, closers, children);
    SumZero(s.producers, InsideWeight);
    SumZero(s.closers, WriterWeight);
    SumZero(s.closers, MarkedWeight);
  }

  predicate ProducerLabel(l: Label) {
    l.CallNotify? || l.Enter? || l.CheckClosed? || l.TrySend? || l.HandOver? || l.Leave?
  }

  predicate WorkerLabel(l: Label) {
    l.Receive? || l.ToChild? || l.Finish? || l.Exit?
  }

  lemma ProducerKeepsLock(s: AsyncState, l: Label)
    requires LockInv(s) && Enabled(s, l) && ProducerLabel(l)
    ensures LockInv(Next(s, l))
  {
    hide WritersCounted, Sum;
    var t := Next(s, l);
    ProducerMoves(s, l.p, t.producers[l.p]);
    if l.Enter? {
      NoWriterNoneExclusive(s);
    }
    if l.Leave? {
      SumAtLeast(s.producers, l.p, InsideWeight);
    }
    if l.TrySend? {
      SeenOpenChannelOpen(s, l.p);
    }
  }

  lemma SeenOpenChannelOpen(s: AsyncState, p: nat)
    requires LockInv(s) && p < |s.producers| && s.producers[p].SawOpen?
    ensures !s.closed && !s.channelClosed
  {
  }

  lemma MarkedChannelOpen(s: AsyncState, c: nat)
    requires LockInv(s) && c < |s.closers| && s.closers[c].Marked?
    ensures s.closed && !s.channelClosed
  {
    SumAtLeast(s.closers, c, MarkedWeight);
  }

  lemma NoWriterNoneExclusive(s: AsyncState)
    requires LockInv(s) && !s.writer
    ensures forall c :: 0 <= c < |s.closers| ==> !HasWriter(s.closers[c])
  {
    SumZero(s.closers, WriterWeight);
    forall c | 0 <= c < |s.closers| ensures !HasWriter(s.closers[c]) {
      assert WriterWeight(s.closers[c]) == 0;
    }
  }

  lemma NoReadersNoneInside(s: AsyncState)
    requires LockInv(s) && s.readers == 0
    ensures forall p :: 0 <= p < |s.producers| ==> !Inside(s.producers[p])
  {
    SumZero(s.producers, InsideWeight);
    forall p | 0 <= p < |s.producers| ensures !Inside(s.producers[p]) {
      assert InsideWeight(s.producers[p]) == 0;
    }
  }

  lemma CloserKeepsLock(s: AsyncState, l: Label)
    requires LockInv(s) && Enabled(s, l) && !ProducerLabel(l) && !WorkerLabel(l)
    ensures LockInv(Next(s, l))
  {
    hide Sum;
    var t := Next(s, l);
    CloserMoves(s, l.c, t.closers[l.c]);
    if l.MarkClosed? {
      NoReadersNoneInside(s);
    }
    if l.CloseChannel? {
      MarkedChannelOpen(s, l.c);
    }
  }

  lemma LockInvKept(s: AsyncState, l: Label)
    requires LockInv(s) && Enabled(s, l)
    ensures LockInv(Next(s, l))
  {
    if ProducerLabel(l) {
      ProducerKeepsLock(s, l);
    } else if !WorkerLabel(l) {
      CloserKeepsLock(s, l);
    }
  }

  lemma ProducerMoves(s: AsyncState, p: nat, to: Producer)
    requires p < |s.producers|
    ensures Sum(s.producers[p := to], InsideWeight)
      == Sum(s.producers, InsideWeight) - InsideWeight(s.producers[p]) + InsideWeight(to)
  {
    SumUpdate(s.producers, p, to, InsideWeight);
  }

  lemma CloserMoves(s: AsyncState, c: nat, to: Closer)
    requires c < |s.closers|
    ensures Sum(s.closers[c := to], WriterWeight)
      == Sum(s.closers, WriterWeight) - WriterWeight(s.closers[c]) + WriterWeight(to)
    ensures Sum(s.closers[c := to], MarkedWeight)
      == Sum(s.closers, MarkedWeight) - MarkedWeight(s.closers[c]) + MarkedWeight(to)
  {
    SumUpdate(s.closers, c, to, WriterWeight);
    SumUpdate(s.closers, c, to, MarkedWeight);
  }

  lemma AcceptedAppend(calls: seq<Call>, c: Call)
    ensures AcceptedEvents(calls + [c])
      == AcceptedEvents(calls) + (if c.outcome == Accepted then [c.event] else [])
  {
    assert (calls + [c])[..|calls|] == calls;
  }

  lemma WorkerKeepsData(s: AsyncState, l: Label)
    requires DataInv(s) && Enabled(s, l) && WorkerLabel(l)
    ensures DataInv(Next(s, l))
  {
    hide RefusedOnlyWhenClosed, AcceptedEvents, Spread, DrainSeen;
    WorkerKeepsOrder(s, l);
    WorkerKeepsSpread(s, l);
    hide Next, Enabled;
  }

  lemma WorkerKeepsOrder(s: AsyncState, l: Label)
    requires Enabled(s, l) && WorkerLabel(l)
    ensures var t := Next(s, l);
            && t.capacity == s.capacity && t.calls == s.calls && t.closed == s.closed && |t.queue| <= |s.queue|
            && t.delivered + InFlight(t.worker) + t.queue == s.delivered + InFlight(s.worker) + s.queue
  {
    if l.Receive? {
      assert s.queue == [s.queue[0]] + s.queue[1..];
    }
  }

  lemma WorkerKeepsSpread(s: AsyncState, l: Label)
    requires DataInv(s) && Enabled(s, l) && WorkerLabel(l)
    ensures var t := Next(s, l);
            && Spread(t.children, t.delivered, t.worker)
            && DrainSeen(t.worker, t.channelClosed, t.queue, t.closers)
  {
    hide RefusedOnlyWhenClosed, AcceptedEvents;
  }

  lemma TrySendKeepsData(s: AsyncState, p: nat)
    requires Inv(s) && Enabled(s, TrySend(p))
    ensures DataInv(Next(s, TrySend(p)))
  {
    hide Spread, LockInv, AcceptedEvents;
    SeenOpenChannelOpen(s, p);
    var e := s.producers[p].event;
    AcceptedAppend(s.calls, Call(p, e, if |s.queue| < s.capacity then Accepted else Full));
  }

  lemma HandOverKeepsData(s: AsyncState, p: nat)
    requires Inv(s) && Enabled(s, HandOver(p))
    ensures DataInv(Next(s, HandOver(p)))
  {
    hide LockInv, AcceptedEvents;
    AcceptedAppend(s.calls, Call(p, s.producers[p].event, Accepted));
  }

  lemma OtherCallStepsKeepData(s: AsyncState, l: Label)
    requires DataInv(s) && Enabled(s, l) && ProducerLabel(l) && !l.TrySend? && !l.HandOver?
    ensures DataInv(Next(s, l))
  {
    hide Spread, DrainSeen, AcceptedEvents;
    if l.CheckClosed? {
      AcceptedAppend(s.calls, Call(l.p, s.producers[l.p].event, Closed));
    }
  }

  lemma CloserKeepsData(s: AsyncState, l: Label)
    requires DataInv(s) && Enabled(s, l) && !ProducerLabel(l) && !WorkerLabel(l)
    ensures DataInv(Next(s, l))
  {
    hide Spread, AcceptedEvents;
  }

  lemma DataInvKept(s: AsyncState, l: Label)
    requires Inv(s) && Enabled(s, l)
    ensures DataInv(Next(s, l))
  {
    hide DataInv, Next;
    if l.TrySend? {
      TrySendKeepsData(s, l.p);
    } else if l.HandOver? {
      HandOverKeepsData(s, l.p);
    } else if ProducerLabel(l) {
      OtherCallStepsKeepData(s, l);
    } else if WorkerLabel(l) {
      WorkerKeepsData(s, l);
    } else {
      CloserKeepsData(s, l);
    }
  }

  lemma {:induction false} RunKeepsInv(s: AsyncState, ls: seq<Label>)
    requires Inv(s) && Run(s, ls).Some?
    ensures Inv(Run(s, ls).value)
  {
    if ls != [] {
      var before, l := ls[..|ls| - 1], ls[|ls| - 1];
      RunKeepsInv(s, before);
      LockInvKept(Run(s, before).value, l);
      DataInvKept(Run(s, before).value, l);
    }
  }

  // ---------- the protocol's guarantees over every interleaving ----------

  ghost predicate SameShape(s: AsyncState, t: AsyncState) {
    && t.capacity == s.capacity && |t.children| == |s.children|
    && |t.producers| == |s.producers| && |t.closers| == |s.closers|
  }

  lemma StepKeepsShape(s: AsyncState, l: Label)
    requires Enabled(s, l)
    ensures SameShape(s, Next(s, l))
  {
  }

  lemma {:induction false} RunKeepsShape(s: AsyncState, ls: seq<Label>)
    requires Run(s, ls).Some?
    ensures SameShape(s, Run(s, ls).value)
  {
    if ls != [] {
      RunKeepsShape(s, ls[..|ls| - 1]);
      StepKeepsShape(Run(s, ls[..|ls| - 1]).value, ls[|ls| - 1]);
    }
  }

  function CountLabels(ls: seq<Label>, p: Label -> bool): nat {
    |Filter(ls, p)|
  }

  function UndecidedWeight(p: Producer): nat {
    if p.Wanting? || p.Entered? || p.SawOpen? then 1 else 0
  }

  /** The events producer `p` called Notify with, in order. */
  function CalledBy(ls: seq<Label>, p: nat): seq<Event> {
    if ls == [] then []
    else
      var l := ls[|ls| - 1];
      CalledBy(ls[..|ls| - 1], p) + (if l.CallNotify? && l.p == p then [l.event] else [])
  }

  /** The events of producer `p` whose calls have been decided, in order. */
  function DecidedFor(calls: seq<Call>, p: nat): seq<Event> {
    if calls == [] then []
    else
      var c := calls[|calls| - 1];
      DecidedFor(calls[..|calls| - 1], p) + (if c.caller == p then [c.event] else [])
  }

  /** The event of a call not decided yet. */
  function Undecided(p: Producer): seq<Event> {
    if p.Wanting? || p.Entered? || p.SawOpen? then [p.event] else []
  }

  /** Every producer's calls are decided one by one, in order and for the event they were made
      with, but for the one it may still be in; nobody else's calls are; and the channel is closed
      as often as some Close has closed it, at most once. */
  ghost predicate Tallied(ls: seq<Label>, t: AsyncState) {
    && (forall p :: 0 <= p < |t.producers| ==> Accounted(ls, t, p))
    && Counted(ls, t)
  }

  ghost predicate Accounted(ls: seq<Label>, t: AsyncState, p: nat)
    requires p < |t.producers|
  {
    CalledBy(ls, p) == DecidedFor(t.calls, p) + Undecided(t.producers[p])
  }

  predicate IsCall(l: Label) {
    l.CallNotify?
  }

  predicate IsClose(l: Label) {
    l.CloseChannel?
  }

  lemma CountStep(ls: seq<Label>, p: Label -> bool)
    requires ls != []
    ensures CountLabels(ls, p) == CountLabels(ls[..|ls| - 1], p) + (if p(ls[|ls| - 1]) then 1 else 0)
  {
  }

  ghost predicate Counted(ls: seq<Label>, t: AsyncState) {
    && CountLabels(ls, IsCall) == |t.calls| + Sum(t.producers, UndecidedWeight)
    && CountLabels(ls, IsClose) == (if t.channelClosed then 1 else 0)
  }

  lemma ProducerTally(s: AsyncState, l: Label)
    requires LockInv(s) && Enabled(s, l) && ProducerLabel(l)
    ensures var t := Next(s, l);
            && |t.calls| + Sum(t.producers, UndecidedWeight)
              == |s.calls| + Sum(s.producers, UndecidedWeight) + (if l.CallNotify? then 1 else 0)
            && t.channelClosed == s.channelClosed
  {
    hide Sum, LockInv;
    if l.TrySend? {
      SeenOpenChannelOpen(s, l.p);
    }
    SumUpdate(s.producers, l.p, Next(s, l).producers[l.p], UndecidedWeight);
  }

  lemma DecidedAppend(calls: seq<Call>, c: Call, p: nat)
    ensures DecidedFor(calls + [c], p) == DecidedFor(calls, p) + (if c.caller == p then [c.event] else [])
  {
    assert (calls + [c])[..|calls|] == calls;
  }

  /** What one step of a producer adds to its calls and to their decisions. */
  lemma CallAccounted(s: AsyncState, l: Label, p: nat)
    requires LockInv(s) && Enabled(s, l) && p < |s.producers|
    ensures var t := Next(s, l);
            && |t.producers| == |s.producers|
            && DecidedFor(t.calls, p) + Undecided(t.producers[p])
              == DecidedFor(s.calls, p) + Undecided(s.producers[p])
                + (if l.CallNotify? && l.p == p then [l.event] else [])
  {
    hide Sum, LockInv, DecidedFor;
    if l.TrySend? {
      SeenOpenChannelOpen(s, l.p);
    }
    var t := Next(s, l);
    if t.calls != s.calls {
      var c := t.calls[|s.calls|];
      assert t.calls == s.calls + [c];
      DecidedAppend(s.calls, c, p);
    }
  }

  lemma OtherTally(s: AsyncState, l: Label)
    requires LockInv(s) && Enabled(s, l) && !ProducerLabel(l)
    ensures var t := Next(s, l);
            && t.calls == s.calls && t.producers == s.producers
            && (t.channelClosed <==> s.channelClosed || l.CloseChannel?)
            && (l.CloseChannel? ==> !s.channelClosed)
  {
    hide Sum, LockInv;
    if l.CloseChannel? {
      MarkedChannelOpen(s, l.c);
    }
  }

  /** Every call of Notify is decided exactly once, as accepted, full or closed; and the channel is
      closed at most once. */
  lemma CallsDecidedOnce(s: AsyncState, ls: seq<Label>)
    requires Inv(s) && s.calls == [] && !s.channelClosed
    requires forall p :: 0 <= p < |s.producers| ==> s.producers[p].Idle?
    requires Run(s, ls).Some?
    ensures Tallied(ls, Run(s, ls).value)
  {
    hide Inv, Run, Accounted, Counted;
    RunKeepsShape(s, ls);
    forall p | 0 <= p < |s.producers| ensures Accounted(ls, Run(s, ls).value, p) {
      CallsAccounted(s, ls, p);
    }
    SumZero(s.producers, UndecidedWeight);
    CallsCounted(s, ls);
  }

  lemma {:induction false} CallsAccounted(s: AsyncState, ls: seq<Label>, p: nat)
    requires Inv(s) && s.calls == [] && p < |s.producers| && s.producers[p].Idle? && Run(s, ls).Some?
    ensures |Run(s, ls).value.producers| == |s.producers| && Accounted(ls, Run(s, ls).value, p)
  {
    if ls != [] {
      hide Next, Enabled, Inv, DecidedFor, Undecided;
      var n := |ls| - 1;
      CallsAccounted(s, ls[..n], p);
      RunKeepsInv(s, ls[..n]);
      assert LockInv(Run(s, ls[..n]).value) by {
        InvIsBoth(Run(s, ls[..n]).value);
      }
      CallAccounted(Run(s, ls[..n]).value, ls[n], p);
    }
  }

  lemma InvIsBoth(s: AsyncState)
    requires Inv(s)
    ensures LockInv(s) && DataInv(s)
  {
  }

  /** One step adds to the tallies what its label says. */
  lemma StepCounted(s: AsyncState, l: Label)
    requires LockInv(s) && Enabled(s, l)
    ensures var t := Next(s, l);
            && |t.calls| + Sum(t.producers, UndecidedWeight)
              == |s.calls| + Sum(s.producers, UndecidedWeight) + (if IsCall(l) then 1 else 0)
            && (if t.channelClosed then 1 else 0) == (if s.channelClosed then 1 else 0) + (if IsClose(l) then 1 else 0)
  {
    hide Next, Enabled, LockInv, Sum;
    if ProducerLabel(l) {
      ProducerTally(s, l);
    } else {
      OtherTally(s, l);
    }
  }

  lemma {:induction false} CallsCounted(s: AsyncState, ls: seq<Label>)
    requires Inv(s) && s.calls == [] && !s.channelClosed && Sum(s.producers, UndecidedWeight) == 0
    requires Run(s, ls).Some?
    ensures Counted(ls, Run(s, ls).value)
  {
    if ls != [] {
      hide Next, Enabled, Inv, LockInv, Sum, CountLabels, IsCall, IsClose;
      var n := |ls| - 1;
      CallsCounted(s, ls[..n]);
      RunKeepsInv(s, ls[..n]);
      InvIsBoth(Run(s, ls[..n]).value);
      CountStep(ls, IsCall);
      CountStep(ls, IsClose);
      StepCounted(Run(s, ls[..n]).value, ls[n]);
    }
  }

  /** In every interleaving: no send on a closed channel and no second close; every call of Notify
      decided exactly once; accepted events are
      the delivered, in-flight and queued ones in order; at most one more than the capacity is
      outstanding; every child has received exactly what was delivered, give or take the event in
      flight; and a Close that returned success means everything accepted reached every child. */
  lemma QueueProtocol(capacity: nat, producers: nat, closers: nat, children: nat, ls: seq<Label>)
    requires Run(Initial(capacity, producers, closers, children), ls).Some?
    ensures var t := Run(Initial(capacity, producers, closers, children), ls).value;
            && !t.panicked
            && Tallied(ls, t)
            && AcceptedEvents(t.calls) == t.delivered + InFlight(t.worker) + t.queue
            && |AcceptedEvents(t.calls)| - |t.delivered| <= capacity + 1
            && |t.children| == children
            && (forall k :: 0 <= k < children ==>
              t.children[k] == t.delivered || t.children[k] == t.delivered + InFlight(t.worker))
            && ((exists c :: 0 <= c < |t.closers| && t.closers[c] == Returned(true)) ==>
              && t.delivered == AcceptedEvents(t.calls)
              && forall k :: 0 <= k < children ==> t.children[k] == AcceptedEvents(t.calls))
  {
    InitialInv(capacity, producers, closers, children);
    RunKeepsInv(Initial(capacity, producers, closers, children), ls);
    RunKeepsShape(Initial(capacity, producers, closers, children), ls);
    CallsDecidedOnce(Initial(capacity, producers, closers, children), ls);
  }

  // ---------- callers never wait for delivery ----------

  function ProducerWork(p: Producer): nat {
    match p
    case Idle => 0
    case Wanting(_) => 4
    case Entered(_) => 3
    case SawOpen(_) => 2
    case Leaving => 1
  }

  function CloserWork(c: Closer): nat {
    match c
    case Announced => 4
    case Holding => 3
    case Marked => 2
    case Releasing => 1
    case _ => 0
  }

  function CallerWork(s: AsyncState): nat {
    Sum(s.producers, ProducerWork) + Sum(s.closers, CloserWork)
  }

  predicate InsideCallLabel(l: Label) {
    l.Enter? || l.CheckClosed? || l.TrySend? || l.Leave? || l.Acquire? || l.MarkClosed? || l.CloseChannel? || l.Release?
  }

  lemma InsideCallStepsShrink(s: AsyncState, l: Label)
    requires LockInv(s) && Enabled(s, l) && InsideCallLabel(l)
    ensures CallerWork(Next(s, l)) < CallerWork(s)
  {
    hide Sum, LockInv;
    if l.TrySend? {
      SeenOpenChannelOpen(s, l.p);
    }
    if l.CloseChannel? {
      MarkedChannelOpen(s, l.c);
    }
    var t := Next(s, l);
    if ProducerLabel(l) {
      SumUpdate(s.producers, l.p, t.producers[l.p], ProducerWork);
    } else {
      SumUpdate(s.closers, l.c, t.closers[l.c], CloserWork);
    }
  }

  lemma CallerCanStep(s: AsyncState) returns (l: Label)
    requires LockInv(s) && CallerWork(s) > 0
    ensures InsideCallLabel(l) && Enabled(s, l)
  {
    hide Sum, LockInv;
    if s.readers > 0 {
      var p := SomeoneInside(s);
      l := match s.producers[p]
        case Entered(_) => CheckClosed(p)
        case SawOpen(_) => TrySend(p)
        case _ => Leave(p);
    } else if s.writer {
      var c := SomeoneWriting(s);
      l := match s.closers[c]
        case Announced => Acquire(c)
        case Holding => MarkClosed(c)
        case Marked => CloseChannel(c)
        case _ => Release(c);
    } else {
      var p := SomeoneWanting(s);
      l := Enter(p);
    }
  }

  lemma SomeoneInside(s: AsyncState) returns (p: nat)
    requires LockInv(s) && s.readers > 0
    ensures p < |s.producers| && Inside(s.producers[p])
  {
    p := PositiveElement(s.producers, InsideWeight);
  }

  lemma SomeoneWriting(s: AsyncState) returns (c: nat)
    requires LockInv(s) && s.writer && s.readers <= 0
    ensures c < |s.closers| && HasWriter(s.closers[c]) && s.readers == 0
  {
    c := PositiveElement(s.closers, WriterWeight);
  }

  lemma SomeoneWanting(s: AsyncState) returns (p: nat)
    requires LockInv(s) && s.readers <= 0 && !s.writer && CallerWork(s) > 0
    ensures p < |s.producers| && s.producers[p].Wanting?
  {
    NoReadersNoneInside(s);
    NoWriterNoneExclusive(s);
    SumZero(s.closers, CloserWork);
    p := PositiveElement(s.producers, ProducerWork);
  }

  /** A slow or stuck provider cannot hold up a caller: while any Notify is unfinished, or any Close
      is still before its drain wait, some caller can take a step that needs nothing from the
      worker, and every such step shortens the work left, so the callers finish by themselves. */
  lemma CallersNeedNoDelivery(s: AsyncState)
    requires Inv(s) && CallerWork(s) > 0
    ensures exists l :: InsideCallLabel(l) && Enabled(s, l)
    ensures forall l :: InsideCallLabel(l) && Enabled(s, l) ==> CallerWork(Next(s, l)) < CallerWork(s)
  {
    hide LockInv, CallerWork, Next, Enabled, InsideCallLabel;
    var l := CallerCanStep(s);
    forall l | InsideCallLabel(l) && Enabled(s, l) ensures CallerWork(Next(s, l)) < CallerWork(s) {
      InsideCallStepsShrink(s, l);
    }
  }

  // ---------- a closed queue drains ----------

  function DrainWork(s: AsyncState): nat
    requires Inv(s)
  {
    |s.queue| * (|s.children| + 2)
      + (match s.worker
         case Delivering(_, k) => |s.children| - k + 2
         case Receiving => 1
         case Exited => 0)
  }

  lemma DrainStep(s: AsyncState, l: Label)
    requires Inv(s) && s.channelClosed && Enabled(s, l) && Inv(Next(s, l))
    ensures Next(s, l).channelClosed
    ensures DrainWork(Next(s, l)) == DrainWork(s) - (if WorkerLabel(l) then 1 else 0)
  {
    hide LockInv, AcceptedEvents;
    if l.Receive? {
      var n := |s.children| + 2;
      assert |s.queue| * n == (|s.queue| - 1) * n + n;
    }
  }

  /** After the channel is closed, whatever the callers still do, the worker has exactly
      `DrainWork` steps left; it can take one until it has exited, and then nothing is queued. So
      a Close without a deadline always returns with everything delivered. */
  lemma {:induction false} ClosedQueueDrains(s: AsyncState, ls: seq<Label>)
    requires Inv(s) && s.channelClosed && Run(s, ls).Some?
    ensures var t := Run(s, ls).value;
            && Inv(t) && t.channelClosed
            && CountLabels(ls, WorkerLabel) + DrainWork(t) == DrainWork(s)
            && (t.worker.Exited? || exists l :: WorkerLabel(l) && Enabled(t, l))
            && (DrainWork(t) == 0 ==> t.worker.Exited? && t.delivered == AcceptedEvents(t.calls))
  {
    if ls != [] {
      var n := |ls| - 1;
      ClosedQueueDrains(s, ls[..n]);
      var m := Run(s, ls[..n]).value;
      LockInvKept(m, ls[n]);
      DataInvKept(m, ls[n]);
      DrainStep(m, ls[n]);
    }
    WorkerCanStep(Run(s, ls).value);
  }

  lemma WorkerCanStep(s: AsyncState)
    requires Inv(s) && s.channelClosed
    ensures s.worker.Exited? || exists l :: WorkerLabel(l) && Enabled(s, l)
    ensures DrainWork(s) == 0 ==> s.worker.Exited? && s.delivered == AcceptedEvents(s.calls)
  {
    match s.worker
    case Exited =>
    case Delivering(_, k) => assert Enabled(s, if k < |s.children| then ToChild else Finish);
    case Receiving => assert Enabled(s, if s.queue != [] then Receive else Exit);
  }

  // ---------- the atomic queue behind the protocol ----------

  /** What a caller may think Notify and Close act on. */
  datatype Atomic = Atomic(capacity: nat, queue: seq<Event>, closed: bool)

  function View(s: AsyncState): Atomic {
    Atomic(s.capacity, s.queue, s.closed)
  }

  function AtomicNotify(a: Atomic, e: Event): (Atomic, Outcome) {
    if a.closed then (a, Closed)
    else if |a.queue| < a.capacity then (a.(queue := a.queue + [e]), Accepted)
    else (a, Full)
  }

  function AtomicReceive(a: Atomic): Atomic {
    if a.queue == [] then a else a.(queue := a.queue[1..])
  }

  /** Why a call ends as it does: closed if the queue is marked closed, full only if `capacity` events are
      waiting in the channel, accepted into free room or by the waiting worker. */
  lemma DecisionMeans(s: AsyncState, l: Label)
    requires Inv(s) && Enabled(s, l) && Next(s, l).calls != s.calls
    ensures var t := Next(s, l);
            && |t.calls| == |s.calls| + 1
            && (t.calls[|s.calls|].outcome == Closed <==> s.closed)
            && (t.calls[|s.calls|].outcome == Full ==> |s.queue| == s.capacity && t.queue == s.queue)
            && (t.calls[|s.calls|].outcome == Accepted ==>
              || (|s.queue| < s.capacity && t.queue == s.queue + [t.calls[|s.calls|].event])
              || (s.queue == [] && s.worker.Receiving? && t.worker == Delivering(t.calls[|s.calls|].event, 0)))
  {
    hide Sum, AcceptedEvents, Spread;
    if l.TrySend? {
      SeenOpenChannelOpen(s, l.p);
    }
  }

  lemma Proceed(s: AsyncState, ls: seq<Label>, l: Label)
    requires Run(s, ls).Some? && Enabled(Run(s, ls).value, l)
    ensures Run(s, ls + [l]) == Some(Next(Run(s, ls).value, l))
  {
    hide Enabled, Next;
    assert (ls + [l])[..|ls|] == ls;
  }

  /** Even a queue without room can accept an event, by handing it to the waiting worker. */
  lemma UnbufferedAccepts(children: nat, e: Event) returns (ls: seq<Label>)
    ensures var t := Run(Initial(0, 1, 1, children), ls);
            t.Some? && t.value.calls == [Call(0, e, Accepted)] && t.value.worker == Delivering(e, 0)
  {
    var s := Initial(0, 1, 1, children);
    assert Run(s, []) == Some(s);
    Proceed(s, [], CallNotify(0, e));
    Proceed(s, [] + [CallNotify(0, e)], Enter(0));
    Proceed(s, [] + [CallNotify(0, e)] + [Enter(0)], CheckClosed(0));
    Proceed(s, [] + [CallNotify(0, e)] + [Enter(0)] + [CheckClosed(0)], HandOver(0));
    ls := [] + [CallNotify(0, e)] + [Enter(0)] + [CheckClosed(0)] + [HandOver(0)];
  }

  /** Operations on the atomic queue. `Handing` is a send that meets the worker on an unbuffered
      channel. */
  datatype AtomicOp = Offer(caller: nat, event: Event) | Handing(caller: nat, event: Event) | Shut | Take

  /** An atomic queue, what it answered to whom, and what was taken from it. */
  datatype Book = Book(state: Atomic, calls: seq<Call>, taken: seq<Event>)

  function Perform(b: Book, op: AtomicOp): Book {
    match op
    case Offer(p, e) =>
      var (a, o) := AtomicNotify(b.state, e);
      Book(a, b.calls + [Call(p, e, o)], b.taken)
    case Handing(p, e) =>
      if b.state.closed then b.(calls := b.calls + [Call(p, e, Closed)])
      else b.(calls := b.calls + [Call(p, e, Accepted)], taken := b.taken + [e])
    case Shut => b.(state := b.state.(closed := true))
    case Take =>
      if b.state.queue == [] then b
      else b.(state := AtomicReceive(b.state), taken := b.taken + [b.state.queue[0]])
  }

  function Sequentially(b: Book, ops: seq<AtomicOp>): Book {
    if ops == [] then b else Perform(Sequentially(b, ops[..|ops| - 1]), ops[|ops| - 1])
  }

  /** The moment at which a call takes effect: inside its critical section. */
  function OpsOf(s: AsyncState, l: Label): seq<AtomicOp>
    requires Enabled(s, l)
  {
    match l
    case CheckClosed(p) => if s.closed then [Offer(p, s.producers[p].event)] else []
    case TrySend(p) => [Offer(p, s.producers[p].event)]
    case HandOver(p) =>
      if s.capacity > 0 then [Offer(p, s.producers[p].event), Take] else [Handing(p, s.producers[p].event)]
    case MarkClosed(_) => [Shut]
    case Receive => [Take]
    case _ => []
  }

  function OpsAlong(s: AsyncState, ls: seq<Label>): seq<AtomicOp>
    requires Run(s, ls).Some?
  {
    if ls == [] then []
    else OpsAlong(s, ls[..|ls| - 1]) + OpsOf(Run(s, ls[..|ls| - 1]).value, ls[|ls| - 1])
  }

  function Recorded(s: AsyncState): Book {
    Book(View(s), s.calls, s.delivered + InFlight(s.worker))
  }

  lemma {:induction false} SequentiallyConcat(b: Book, ops: seq<AtomicOp>, more: seq<AtomicOp>)
    ensures Sequentially(b, ops + more) == Sequentially(Sequentially(b, ops), more)
  {
    if more == [] {
      assert ops + more == ops;
    } else {
      SequentiallyConcat(b, ops, more[..|more| - 1]);
      assert (ops + more)[..|ops + more| - 1] == ops + more[..|more| - 1];
    }
  }

  lemma OneOrTwo(b: Book, x: AtomicOp, y: AtomicOp)
    ensures Sequentially(b, []) == b && Sequentially(b, [x]) == Perform(b, x)
    ensures Sequentially(b, [x, y]) == Perform(Perform(b, x), y)
  {
    assert [x, y][..1] == [x] && [x][..0] == [];
  }

  /** No step is visible but the one at which a call takes effect, with the outcome the atomic queue
      gives at that moment although the test of `closed` may have come earlier. */
  lemma EveryStepIsAtomic(s: AsyncState, l: Label)
    requires Inv(s) && Enabled(s, l)
    ensures Sequentially(Recorded(s), OpsOf(s, l)) == Recorded(Next(s, l))
    ensures forall i :: 0 <= i < |OpsOf(s, l)| && (OpsOf(s, l)[i].Offer? || OpsOf(s, l)[i].Handing?) ==>
      var p := OpsOf(s, l)[i].caller;
      && p < |s.producers| && Undecided(s.producers[p]) == [OpsOf(s, l)[i].event]
      && |Next(s, l).producers| == |s.producers| && Next(s, l).producers[p].Leaving?
  {
    assert LockInv(s);
    OpsPerform(s, l);
    OpsInsideCalls(s, l);
  }

  lemma OpsInsideCalls(s: AsyncState, l: Label)
    requires LockInv(s) && Enabled(s, l)
    ensures forall i :: 0 <= i < |OpsOf(s, l)| && (OpsOf(s, l)[i].Offer? || OpsOf(s, l)[i].Handing?) ==>
      var p := OpsOf(s, l)[i].caller;
      && p < |s.producers| && Undecided(s.producers[p]) == [OpsOf(s, l)[i].event]
      && |Next(s, l).producers| == |s.producers| && Next(s, l).producers[p].Leaving?
  {
    hide Sum, LockInv;
    if l.TrySend? {
      SeenOpenChannelOpen(s, l.p);
    }
  }

  lemma OpsPerform(s: AsyncState, l: Label)
    requires Inv(s) && Enabled(s, l)
    ensures Sequentially(Recorded(s), OpsOf(s, l)) == Recorded(Next(s, l))
  {
    hide Sequentially, Sum;
    var ops := OpsOf(s, l);
    OneOrTwo(Recorded(s), if |ops| > 0 then ops[0] else Shut, if |ops| > 1 then ops[1] else Shut);
    if l.TrySend? {
      SeenOpenChannelOpen(s, l.p);
    }
    if l.HandOver? {
      assert !s.closed && [s.producers[l.p].event][1..] == [];
    }
  }

  /** Linearisation of whole runs: performing the calls one after the other, each at the moment it
      took effect between its start and its return, on a plain bounded queue gives every caller the
      outcome it got, hands the worker the events it got in their order, and leaves the queue and
      the closed flag as they are. */
  lemma {:induction false} RunLinearises(s: AsyncState, ls: seq<Label>)
    requires Inv(s) && Run(s, ls).Some?
    ensures Sequentially(Recorded(s), OpsAlong(s, ls)) == Recorded(Run(s, ls).value)
  {
    if ls != [] {
      hide Inv, Next, Enabled, Recorded, OpsOf;
      var n := |ls| - 1;
      var m := Run(s, ls[..n]).value;
      RunLinearises(s, ls[..n]);
      RunKeepsInv(s, ls[..n]);
      EveryStepIsAtomic(m, ls[n]);
      SequentiallyConcat(Recorded(s), OpsAlong(s, ls[..n]), OpsOf(m, ls[n]));
    }
  }

  /** The queue as one goroutine sees it, its methods being the critical sections. */
  class Async {
    const capacity: nat
    const child: Multi
    var queue: seq<Event>
    var closed: bool

    ghost function View(): Atomic
      reads this
    {
      Atomic(capacity, queue, closed)
    }

    constructor (child: Multi, queueSize: nat)
      ensures View() == Atomic(queueSize, [], false) && this.child == child
    {
      this.child := child;
      capacity := queueSize;
      queue, closed := [], false;
    }

    method Notify(e: Event) returns (o: Outcome)
      modifies this
      ensures (View(), o) == AtomicNotify(old(View()), e)
      ensures closed == old(closed)
      ensures o == Closed <==> closed
      ensures o == Full <==> !closed && |old(queue)| >= capacity
      ensures queue == if o == Accepted then old(queue) + [e] else old(queue)
    {
      if closed {
        return Closed;
      }
      if |queue| < capacity {
        queue := queue + [e];
        return Accepted;
      }
      return Full;
    }

    /** The worker's loop over a closed queue, as far as it gets in the time of `limit` deliveries:
        every event it takes goes to every child, in order. */
    method DeliverUpTo(limit: nat)
      requires closed && child.Valid()
      modifies this, child.children, child.journal
      ensures closed && queue == old(queue)[|Taken(old(queue), limit)|..]
      ensures forall c :: c in child.children ==>
        c.received == old(c.received) + RepeatEach(Taken(old(queue), limit), Occurrences(child.children, c))
      ensures child.journal.entries == old(child.journal.entries) + ServedEach(child.children, Taken(old(queue), limit))
    {
      hide Repeat, Occurrences, Served, RepeatEach, ServedEach;
      ghost var done: seq<Event> := [];
      OneMoreEach(child.children, done, 0, None);
      forall c | c in child.children ensures RepeatEach([], Occurrences(child.children, c)) == [] {
        OneMoreEach(child.children, [], Occurrences(child.children, c), None);
      }
      var n := 0;
      while queue != [] && n < limit
        invariant closed && n == |done| <= limit && done + queue == old(queue)
        invariant forall c :: c in child.children ==>
          c.received == old(c.received) + RepeatEach(done, Occurrences(child.children, c))
        invariant child.journal.entries == old(child.journal.entries) + ServedEach(child.children, done)
        decreases |queue|
      {
        var e := queue[0];
        queue := queue[1..];
        child.Notify(e);
        forall c | c in child.children
          ensures RepeatEach(done + [e], Occurrences(child.children, c))
            == RepeatEach(done, Occurrences(child.children, c)) + Repeat(e, Occurrences(child.children, c))
        {
          OneMoreEach(child.children, done, Occurrences(child.children, c), Some(e));
        }
        OneMoreEach(child.children, done, 0, Some(e));
        done := done + [e];
        n := n + 1;
      }
      assert done == Taken(old(queue), limit);
    }

    /** Without a deadline every queued event goes to every child; to each as it stood in the queue,
        when the children are distinct. */
    method DeliverAll()
      requires closed && child.Valid()
      modifies this, child.children, child.journal
      ensures closed && queue == []
      ensures forall c :: c in child.children ==>
        c.received == old(c.received) + RepeatEach(old(queue), Occurrences(child.children, c))
      ensures forall c :: c in child.children && Occurrences(child.children, c) == 1 ==>
        c.received == old(c.received) + old(queue)
      ensures child.journal.entries == old(child.journal.entries) + ServedEach(child.children, old(queue))
    {
      RepeatEachOnce(queue);
      DeliverUpTo(|queue|);
    }

    /** Close with a deadline `limit` deliveries away: no further events, and success exactly when the
        drain is done by then; what is not delivered is still queued, in order. */
    method Close(limit: nat) returns (drained: bool)
      requires child.Valid()
      modifies this, child.children, child.journal
      ensures closed && queue == old(queue)[|Taken(old(queue), limit)|..]
      ensures drained <==> |old(queue)| <= limit
      ensures forall c :: c in child.children ==>
        c.received == old(c.received) + RepeatEach(Taken(old(queue), limit), Occurrences(child.children, c))
      ensures child.journal.entries == old(child.journal.entries) + ServedEach(child.children, Taken(old(queue), limit))
    {
      if !closed {
        closed := true;
      }
      DeliverUpTo(limit);
      drained := queue == [];
    }
  }

  /** What `limit` deliveries take from the queue. */
  function Taken(queue: seq<Event>, limit: nat): seq<Event> {
    if |queue| <= limit then queue else queue[..limit]
  }

  function RepeatEach(es: seq<Event>, n: nat): seq<Event> {
    if es == [] then [] else RepeatEach(es[..|es| - 1], n) + Repeat(es[|es| - 1], n)
  }

  /** Each event to each child in turn. */
  function ServedEach(children: seq<Child>, es: seq<Event>): seq<(Child, Event)> {
    if es == [] then [] else ServedEach(children, es[..|es| - 1]) + Served(children, es[|es| - 1])
  }

  lemma OneMoreEach(children: seq<Child>, es: seq<Event>, n: nat, e: Option<Event>)
    ensures RepeatEach([], n) == [] && ServedEach(children, []) == []
    ensures e.Some? ==> RepeatEach(es + [e.value], n) == RepeatEach(es, n) + Repeat(e.value, n)
    ensures e.Some? ==> ServedEach(children, es + [e.value]) == ServedEach(children, es) + Served(children, e.value)
  {
    if e.Some? {
      assert (es + [e.value])[..|es|] == es;
    }
  }

  lemma {:induction false} RepeatEachOnce(es: seq<Event>)
    ensures RepeatEach(es, 1) == es
  {
    if es != [] {
      RepeatEachOnce(es[..|es| - 1]);
      assert Repeat(es[|es| - 1], 0) == [];
      assert Repeat(es[|es| - 1], 1) == [es[|es| - 1]];
    }
  }
}
