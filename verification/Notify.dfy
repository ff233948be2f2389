/** Alert events and the ordered fan-out to several notifiers. */
module Notify {
  import opened Monitoring

  datatype Event =
    | StateChange(monitor: string, from: State, to: State, result: Result)
    | CertExpiring(monitor: string, certExpiry: Time, daysLeft: int)
    | Flapping(monitor: string, flips: nat)

  /** Who was given which event, in the order it happened. */
  class Journal {
    var entries: seq<(Child, Event)>
  }

  /** A provider: it may fail, but it has seen the event. */
  class Child {
    const journal: Journal
    var received: seq<Event>

    constructor (journal: Journal)
      ensures this.journal == journal && received == []
    {
      this.journal := journal;
      received := [];
    }

    method Notify(e: Event) returns (failed: bool)
      modifies this, journal
      ensures received == old(received) + [e]
      ensures journal.entries == old(journal.entries) + [(this, e)]
    {
      received := received + [e];
      journal.entries := journal.entries + [(this, e)];
      failed := *;
    }
  }

  function Occurrences(children: seq<Child>, c: Child): nat {
    if children == [] then 0
    else Occurrences(children[..|children| - 1], c) + (if children[|children| - 1] == c then 1 else 0)
  }

  function Repeat<T>(x: T, n: nat): seq<T> {
    if n == 0 then [] else Repeat(x, n - 1) + [x]
  }

  /** The event given to each child in turn. */
  function Served(children: seq<Child>, e: Event): seq<(Child, Event)> {
    seq(|children|, i requires 0 <= i < |children| => (children[i], e))
  }

  class Multi {
    const children: seq<Child>
    const journal: Journal

    /** All children are entered in one journal. */
    ghost predicate Valid() {
      forall c :: c in children ==> c.journal == journal
    }

    constructor (children: seq<Child>, journal: Journal)
      requires forall c :: c in children ==> c.journal == journal
      ensures this.children == children && this.journal == journal && Valid()
    {
      this.children, this.journal := children, journal;
    }

    /** Every child gets the event, in the configured order and as often as it is configured,
        whatever the others answer. */
    method Notify(e: Event)
      requires Valid()
      modifies children, journal
      ensures forall c :: c in children ==>
        c.received == old(c.received) + Repeat(e, Occurrences(children, c))
      ensures journal.entries == old(journal.entries) + Served(children, e)
      ensures |journal.entries| == |old(journal.entries)| + |children|
      ensures forall i :: 0 <= i < |children| ==> journal.entries[|old(journal.entries)| + i] == (children[i], e)
    {
      for i := 0 to |children|
        invariant journal.entries == old(journal.entries) + Served(children[..i], e)
        invariant forall c :: c in children ==>
          c.received == old(c.received) + Repeat(e, Occurrences(children[..i], c))
      {
        assert children[..i + 1][..i] == children[..i];
        var _ := children[i].Notify(e);
      }
      assert children[..|children|] == children;
    }
  }
}
