/** The flap detector: flips over a sliding window of raw results, with an edge-triggered alert. */
module FlapDetector {
  import opened Sequences
  import opened StateMachine

  const FLAP_WINDOW: nat := 10
  const FLAP_THRESHOLD: nat := 5

  datatype FlapValue = FlapValue(window: seq<bool>, warned: bool)

  const CALM := FlapValue([], false)

  function LookupFlap(states: map<string, FlapValue>, name: string): FlapValue {
    if name in states then states[name] else CALM
  }

  function FlapStep(v: FlapValue, up: bool): FlapValue {
    var window := LastN(v.window + [up], FLAP_WINDOW);
    FlapValue(window, Flips(window) >= FLAP_THRESHOLD)
  }

  /** An observation fires when it makes the warning go from off to on. */
  predicate FlapFires(v: FlapValue, up: bool) {
    !v.warned && FlapStep(v, up).warned
  }

  class FlapState {
    var window: seq<bool>
    var warned: bool

    constructor ()
      ensures window == [] && !warned
    {
      window, warned := [], false;
    }

    ghost function View(): FlapValue
      reads this
    {
      FlapValue(window, warned)
    }

    method Record(up: bool) returns (flips: nat, fire: bool)
      modifies this
      ensures View() == FlapStep(old(View()), up)
      ensures flips == Flips(window)
      ensures fire == FlapFires(old(View()), up)
      ensures var all := old(window) + [up]; window == if |all| <= 10 then all else all[|all| - 10..]
      ensures warned <==> flips >= 5
      ensures fire <==> flips >= 5 && !old(warned)
    {
      hide Flips;
      window := window + [up];
      if |window| > FLAP_WINDOW {
        window := window[|window| - FLAP_WINDOW..];
      }
      flips := CountFlips(window);
      fire := false;
      if flips >= FLAP_THRESHOLD {
        if !warned {
          warned := true;
          fire := true;
        }
      } else {
        warned := false;
      }
    }
  }

  class FlapTracker {
    var states: map<string, FlapState>

    /** No two monitors share a state object. */
    ghost predicate Valid()
      reads this
    {
      forall m, n :: m in states && n in states && m != n ==> states[m] != states[n]
    }

    ghost function View(): map<string, FlapValue>
      reads this, states.Values
    {
      map n | n in states :: states[n].View()
    }

    constructor ()
      ensures Valid() && View() == map[] && states == map[]
    {
      states := map[];
    }

    method Observe(name: string, up: bool) returns (flips: nat, fire: bool)
      requires Valid()
      modifies this, states.Values
      ensures Valid() && fresh(states.Values - old(states.Values))
      ensures View() == old(View())[name := FlapStep(LookupFlap(old(View()), name), up)]
      ensures flips == Flips(View()[name].window)
      ensures fire == FlapFires(LookupFlap(old(View()), name), up)
      ensures name in states && flips == |Turns(states[name].window)|
      ensures states[name].warned <==> flips >= 5
      ensures fire <==> flips >= 5 && !(name in old(states) && old(states[name].warned))
    {
      hide Flips, FlapStep, Turns;
      var st: FlapState;
      if name in states {
        st := states[name];
      } else {
        st := new FlapState();
        states := states[name := st];
      }
      flips, fire := st.Record(up);
      FlipsMeans(st.window);
    }
  }

  /** The places at which a result differs from the one before it. */
  function Turns(ups: seq<bool>): set<int> {
    set i {:trigger ups[i]} | 1 <= i < |ups| && ups[i] != ups[i - 1]
  }

  lemma {:induction false} FlipsMeans(ups: seq<bool>)
    ensures Flips(ups) == |Turns(ups)|
  {
    if |ups| < 2 {
      assert Turns(ups) == {};
    } else {
      var n := |ups| - 1;
      FlipsMeans(ups[..n]);
      assert Turns(ups) == if ups[n] != ups[n - 1] then Turns(ups[..n]) + {n} else Turns(ups[..n]);
    }
  }

  method CountFlips(window: seq<bool>) returns (flips: nat)
    requires window != []
    ensures flips == Flips(window) == |Turns(window)|
  {
    FlipsMeans(window);
    flips := 0;
    var i := 1;
    while i < |window|
      invariant 1 <= i <= |window|
      invariant flips == Flips(window[..i])
    {
      assert window[..i + 1][..i] == window[..i];
      if window[i] != window[i - 1] {
        flips := flips + 1;
      }
      i := i + 1;
    }
    assert window[..|window|] == window;
  }

  // ---------- whole histories of one monitor ----------

  function FlapFold(ups: seq<bool>): FlapValue {
    if ups == [] then CALM else FlapStep(FlapFold(ups[..|ups| - 1]), ups[|ups| - 1])
  }

  /** The detector's flip count after a whole history: flips among its last ten results. */
  function WindowFlips(ups: seq<bool>): nat {
    Flips(LastN(ups, FLAP_WINDOW))
  }

  /** Result number `i` of the history (from zero) raises the flapping alert. */
  predicate FiresAt(ups: seq<bool>, i: nat)
    requires i < |ups|
  {
    FlapFires(FlapFold(ups[..i]), ups[i])
  }

  function FireCount(ups: seq<bool>): nat {
    if ups == [] then 0
    else FireCount(ups[..|ups| - 1]) + (if FlapFires(FlapFold(ups[..|ups| - 1]), ups[|ups| - 1]) then 1 else 0)
  }

  /** Trimming at every step loses nothing: the window is the last ten results, and the warning is
      on exactly when they hold at least five flips. */
  lemma {:induction false} FlapWindow(ups: seq<bool>)
    ensures FlapFold(ups) == FlapValue(LastN(ups, FLAP_WINDOW), WindowFlips(ups) >= FLAP_THRESHOLD)
  {
    if ups != [] {
      var before := ups[..|ups| - 1];
      FlapWindow(before);
      LastNAppend(before, ups[|ups| - 1], FLAP_WINDOW);
      assert ups == before + [ups[|ups| - 1]];
    }
  }

  lemma {:induction false} FlipsBounds(s: seq<bool>)
    ensures Flips(s) <= if s == [] then 0 else |s| - 1
  {
    if s != [] {
      FlipsBounds(s[..|s| - 1]);
    }
  }

  lemma {:induction false} FlipsDropFirst(s: seq<bool>)
    requires |s| >= 2
    ensures Flips(s) == Flips(s[1..]) + (if s[0] != s[1] then 1 else 0)
  {
    var n := |s| - 1;
    if |s| == 2 {
      assert s[..1] == [s[0]];
    } else {
      FlipsDropFirst(s[..n]);
      assert s[..n][1..] == s[1..][..n - 1];
    }
  }

  /** One more result changes the flip count by at most one, and raises it only by differing from
      the result before it. */
  lemma FlipCountMovesByOne(ups: seq<bool>, up: bool)
    ensures -1 <= WindowFlips(ups + [up]) - WindowFlips(ups) <= 1
    ensures WindowFlips(ups + [up]) > WindowFlips(ups) ==> ups != [] && ups[|ups| - 1] != up
  {
    var w := LastN(ups, FLAP_WINDOW);
    LastNAppend(ups, up, FLAP_WINDOW);
    assert (w + [up])[..|w|] == w;
    if |w| == FLAP_WINDOW {
      FlipsDropFirst(w + [up]);
    }
  }

  /** A flapping alert fires exactly when the count rises from below five; it then reports exactly
      five flips, the triggering result differs from its predecessor, and at least five results
      came before it. */
  lemma FlapAlertExact(ups: seq<bool>, i: nat)
    requires i < |ups|
    ensures FiresAt(ups, i) <==> WindowFlips(ups[..i]) < FLAP_THRESHOLD <= WindowFlips(ups[..i + 1])
    ensures FiresAt(ups, i) ==>
      && Flips(FlapStep(FlapFold(ups[..i]), ups[i]).window) == FLAP_THRESHOLD
      && i >= 5
      && ups[i] != ups[i - 1]
  {
    FlapWindow(ups[..i]);
    FlapWindow(ups[..i + 1]);
    assert ups[..i + 1] == ups[..i] + [ups[i]];
    assert ups[..i + 1][..i] == ups[..i];
    FlipCountMovesByOne(ups[..i], ups[i]);
    FlipsBounds(LastN(ups[..i + 1], FLAP_WINDOW));
  }

  /** Two alerts for one monitor are never on neighbouring results. */
  lemma FlapAlertsSpaced(ups: seq<bool>, i: nat, j: nat)
    requires i < j < |ups| && FiresAt(ups, i) && FiresAt(ups, j)
    ensures j >= i + 2
  {
    FlapAlertExact(ups, i);
    FlapAlertExact(ups, j);
  }
}
