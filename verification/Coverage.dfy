/** The debounced machine and the flap detector together leave no unhealthy target unnoticed. */
module Coverage {
  import opened Monitoring
  import opened Sequences
  import opened StateMachine
  import opened FlapDetector

  /** The three results ending at position `i` all failed. */
  predicate ThreeFailuresEndAt(ups: seq<bool>, i: nat)
    requires i < |ups|
  {
    i >= 2 && !ups[i] && !ups[i - 1] && !ups[i - 2]
  }

  ghost predicate NeverThreeFailures(ups: seq<bool>) {
    forall i :: 0 <= i < |ups| ==> !ThreeFailuresEndAt(ups, i)
  }

  /** Short outages have to be paid for in flips. */
  lemma {:induction false} FailuresBoundedByFlips(ups: seq<bool>)
    requires NeverThreeFailures(ups)
    ensures TrailingFailures(ups) <= 2
    ensures Count(ups, false) <= Flips(ups) + 2
    ensures Count(ups, false) <= Flips(ups) + (if ups != [] && ups[|ups| - 1] then 1 else TrailingFailures(ups))
  {
    if ups != [] {
      var before := ups[..|ups| - 1];
      assert NeverThreeFailures(before) by {
        forall i | 0 <= i < |before| ensures !ThreeFailuresEndAt(before, i) {
          assert !ThreeFailuresEndAt(ups, i);
        }
      }
      FailuresBoundedByFlips(before);
      assert !ThreeFailuresEndAt(ups, |ups| - 1);
      TrailingFailuresSpan(ups);
    }
  }

  lemma ThreeFailuresGoDown(ups: seq<bool>, i: nat)
    requires i < |ups| && ThreeFailuresEndAt(ups, i)
    ensures Fold(ups[..i + 1]).state == Down
  {
    var p := ups[..i + 1];
    StateClosedForm(p);
    assert LastN(p, FAIL_THRESHOLD) == [ups[i - 2], ups[i - 1], ups[i]];
  }

  function StateAfter(ups: seq<bool>, i: nat): State
    requires i < |ups|
  {
    Fold(ups[..i + 1]).state
  }

  /** The machine was Down right after one of the last `n` results. */
  ghost predicate DownWithin(ups: seq<bool>, n: nat) {
    exists i :: 0 <= i < |ups| && i >= |ups| - n && StateAfter(ups, i) == Down
  }

  /** If seven of the last ten results failed, then either the machine was Down after one of them,
      or the flap detector is warning right now. */
  lemma UnhealthyIsNoticed(ups: seq<bool>)
    requires Count(LastN(ups, FLAP_WINDOW), false) >= 7
    ensures FlapFold(ups).warned || DownWithin(ups, FLAP_WINDOW)
  {
    hide Flips, Count, Fold, FlapFold;
    var w := LastN(ups, FLAP_WINDOW);
    if NeverThreeFailures(w) {
      FlapWindow(ups);
      FailuresBoundedByFlips(w);
    } else {
      var j :| 0 <= j < |w| && ThreeFailuresEndAt(w, j);
      var d := |ups| - |w|;
      assert w[j] == ups[d + j] && w[j - 1] == ups[d + j - 1] && w[j - 2] == ups[d + j - 2];
      ThreeFailuresGoDown(ups, d + j);
      assert StateAfter(ups, d + j) == Down;
    }
  }

  /** Up and down in strict turns. */
  ghost predicate Alternating(ups: seq<bool>) {
    forall i, j :: 0 <= i && j == i + 1 < |ups| ==> ups[j] != ups[i]
  }

  lemma {:induction false} AlternatingFlips(ups: seq<bool>)
    requires Alternating(ups) && ups != []
    ensures Flips(ups) == |ups| - 1
  {
    if |ups| > 1 {
      AlternatingFlips(ups[..|ups| - 1]);
    }
  }

  lemma AlternatingNeverDown(ups: seq<bool>)
    requires Alternating(ups)
    ensures Fold(ups).state != Down
    ensures ups != [] ==> !Loud(Fold(ups[..|ups| - 1]).state, Fold(ups).state)
  {
    FoldTracksFailures(ups);
    TrailingFailuresSpan(ups);
    if |ups| >= 2 {
      assert ups[|ups| - 1] != ups[|ups| - 2];
    }
  }

  /** A target that strictly alternates is invisible to the debounced machine for ever, and from
      its sixth result on has raised exactly one flapping alert. */
  lemma {:induction false} AlternatingRaisesOneAlert(ups: seq<bool>)
    requires Alternating(ups)
    ensures Alerts(ups) == []
    ensures FireCount(ups) == if |ups| >= 6 then 1 else 0
  {
    if ups != [] {
      hide Flips, Fold, FlapFold;
      var n := |ups| - 1;
      AlternatingRaisesOneAlert(ups[..n]);
      AlternatingNeverDown(ups);
      FireCountStep(ups);
      AlternatingWindow(ups);
      if n > 0 {
        AlternatingWindow(ups[..n]);
      } else {
        EmptyWindow(ups[..n]);
      }
    }
  }

  lemma EmptyWindow(ups: seq<bool>)
    requires ups == []
    ensures WindowFlips(ups) == 0
  {
  }

  lemma FireCountStep(ups: seq<bool>)
    requires ups != []
    ensures var before := ups[..|ups| - 1];
            FireCount(ups) == FireCount(before)
              + (if WindowFlips(before) < FLAP_THRESHOLD <= WindowFlips(ups) then 1 else 0)
  {
    FlapWindow(ups);
    FlapWindow(ups[..|ups| - 1]);
  }

  lemma AlternatingWindow(ups: seq<bool>)
    requires Alternating(ups) && ups != []
    ensures WindowFlips(ups) == (if |ups| < FLAP_WINDOW then |ups| else FLAP_WINDOW) - 1
  {
    var w := LastN(ups, FLAP_WINDOW);
    var d := |ups| - |w|;
    assert forall i :: 0 <= i < |w| ==> w[i] == ups[i + d];
    AlternatingFlips(w);
  }
}
