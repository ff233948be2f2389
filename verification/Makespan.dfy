/** How long a batch takes: jittered offsets within the interval, then a work-conserving pool. */
module Makespan {
  import opened Monitoring
  import opened Sequences

  const TWO63: int := 0x8000_0000_0000_0000
  const TWO64: int := 0x1_0000_0000_0000_0000

  /** Conversion of an unsigned 64-bit value to a signed Duration. */
  function ToInt64(x: int): int
    requires 0 <= x < TWO64
  {
    if x < TWO63 then x else x - TWO64
  }

  /** A monitor's phase: its 64-bit name hash modulo the interval, converted to a Duration. */
  function Offset(hash: int, interval: Duration): Duration
    requires 0 <= hash < TWO64 && -TWO63 <= interval < TWO63
  {
    if interval <= 0 then 0 else ToInt64(hash % interval)
  }

  /** Every offset lies in [0, interval); the conversion never wraps. */
  lemma OffsetInInterval(hash: int, interval: Duration)
    requires 0 <= hash < TWO64 && -TWO63 <= interval < TWO63
    ensures if interval > 0 then 0 <= Offset(hash, interval) < interval else Offset(hash, interval) == 0
  {
  }

  /** The phase is what the hash leaves over multiples of the interval: names share a phase exactly when
      their hashes differ by such a multiple, all others start apart. */
  lemma OffsetMeans(hash: int, other: int, interval: Duration)
    requires 0 <= hash < TWO64 && 0 <= other < TWO64 && 0 < interval < TWO63
    ensures exists q :: hash == q * interval + Offset(hash, interval)
    ensures Offset(hash, interval) == Offset(other, interval) <==> exists k :: hash - other == k * interval
  {
    var q, p := hash / interval, other / interval;
    assert hash == q * interval + Offset(hash, interval);
    assert other == p * interval + Offset(other, interval);
    assert q * interval - p * interval == (q - p) * interval;
    if k :| hash - other == k * interval {
      SameRemainder(Offset(hash, interval), Offset(other, interval), k - (q - p), interval);
      assert (k - (q - p)) * interval == k * interval - (q - p) * interval;
    }
  }

  lemma SameRemainder(a: int, b: int, k: int, d: int)
    requires 0 <= a < d && 0 <= b < d
    ensures a - b == k * d ==> a == b
  {
    if k > 0 {
      Multiples(1, k, d);
    } else if k < 0 {
      Multiples(k, -1, d);
    }
  }

  /** The timing of one batch: when each job may start, starts and ends, and on which worker. */
  datatype Schedule = Schedule(release: seq<Time>, begin: seq<Time>, end: seq<Time>, on: seq<nat>)

  ghost predicate BusyAt(s: Schedule, w: nat, t: Time, j: nat)
    requires Shaped(s) && j < |s.on|
  {
    s.on[j] == w && s.begin[j] <= t < s.end[j]
  }

  ghost predicate Occupied(s: Schedule, w: nat, t: Time)
    requires Shaped(s)
  {
    exists j :: 0 <= j < |s.on| && BusyAt(s, w, t, j)
  }

  ghost predicate Shaped(s: Schedule) {
    |s.release| == |s.begin| == |s.end| == |s.on|
  }

  /** Offsets come from `Offset`, probes take at most `timeout`, and a dispatcher waits only while
      every worker is busy. */
  ghost predicate Runs(
    s: Schedule, start: Time, interval: Duration, timeout: Duration, workers: nat, hashes: seq<int>)
  {
    && Shaped(s) && |hashes| == |s.on|
    && -TWO63 <= interval < TWO63
    && (forall i :: 0 <= i < |hashes| ==> 0 <= hashes[i] < TWO64)
    && (forall i :: 0 <= i < |s.on| ==>
      && s.release[i] == start + Offset(hashes[i], interval)
      && s.release[i] <= s.begin[i] <= s.end[i] <= s.begin[i] + timeout
      && s.on[i] < workers)
    && (forall i, t, w :: 0 <= i < |s.on| && s.release[i] <= t < s.begin[i] && 0 <= w < workers ==>
      Occupied(s, w, t))
  }

  function CeilDiv(n: nat, d: nat): nat
    requires d > 0
  {
    (n + d - 1) / d
  }

  /** Different jobs, none of them `except`, are fewer than all jobs. */
  lemma Pigeonhole(f: seq<nat>, jobs: nat, except: nat)
    requires except < jobs
    requires forall a :: 0 <= a < |f| ==> f[a] < jobs && f[a] != except
    requires forall a, b :: 0 <= a < b < |f| ==> f[a] != f[b]
    ensures |f| <= jobs - 1
  {
    var used := Used(f);
    UsedSize(f);
    BelowSize(jobs);
    assert used <= Below(jobs) - {except};
    SubsetSize(used, Below(jobs) - {except});
  }

  /** Sampling one worker every `timeout` from `from` on meets a different job each time. */
  lemma SampleJobs(s: Schedule, timeout: Duration, w: nat, from: Time, k: nat, until: Time) returns (f: seq<nat>)
    requires Shaped(s)
    requires forall i :: 0 <= i < |s.on| ==> s.end[i] <= s.begin[i] + timeout
    requires forall t :: from <= t < until ==> Occupied(s, w, t)
    requires timeout > 0 && (k > 0 ==> from + (k - 1) * timeout < until)
    ensures |f| == k
    ensures forall a :: 0 <= a < k ==> f[a] < |s.on| && BusyAt(s, w, from + a * timeout, f[a])
    ensures forall a, b :: 0 <= a < b < k ==> f[a] != f[b]
  {
    f := [];
    while |f| < k
      invariant |f| <= k
      invariant forall a :: 0 <= a < |f| ==> f[a] < |s.on| && BusyAt(s, w, from + a * timeout, f[a])
      invariant forall a, b :: 0 <= a < b < |f| ==> f[a] != f[b]
    {
      var t := from + |f| * timeout;
      Multiples(|f|, k - 1, timeout);
      assert Occupied(s, w, t);
      var j :| 0 <= j < |s.on| && BusyAt(s, w, t, j);
      forall a | 0 <= a < |f| ensures f[a] != j {
        Multiples(a + 1, |f|, timeout);
        assert BusyAt(s, w, from + a * timeout, f[a]);
        assert (a + 1) * timeout == a * timeout + timeout;
      }
      f := f + [j];
    }
  }

  lemma Multiples(a: int, b: int, d: int)
    requires a <= b && d >= 0
    ensures a * d <= b * d
  {
    assert b * d - a * d == (b - a) * d;
  }

  /** Jobs of workers below `w`, all different, none of them `last`. */
  ghost predicate Collected(s: Schedule, f: seq<nat>, w: nat, last: nat)
    requires Shaped(s)
  {
    && (forall a :: 0 <= a < |f| ==> f[a] < |s.on| && f[a] != last && s.on[f[a]] < w)
    && (forall a, b :: 0 <= a < b < |f| ==> f[a] != f[b])
  }

  lemma CollectMore(s: Schedule, f: seq<nat>, g: seq<nat>, w: nat, last: nat)
    requires Shaped(s) && Collected(s, f, w, last)
    requires forall a :: 0 <= a < |g| ==> g[a] < |s.on| && g[a] != last && s.on[g[a]] == w
    requires forall a, b :: 0 <= a < b < |g| ==> g[a] != g[b]
    ensures Collected(s, f + g, w + 1, last)
  {
  }

  lemma NothingCollected(s: Schedule, last: nat)
    requires Shaped(s)
    ensures Collected(s, [], 0, last)
  {
  }

  lemma CollectedFew(s: Schedule, f: seq<nat>, w: nat, last: nat)
    requires Shaped(s) && Collected(s, f, w, last) && last < |s.on|
    ensures |f| <= |s.on| - 1
  {
    Pigeonhole(f, |s.on|, last);
  }

  /** None of the jobs sampled while `last` waits is `last` itself. */
  lemma SampleOthers(s: Schedule, timeout: Duration, w: nat, from: Time, k: nat, last: nat) returns (g: seq<nat>)
    requires Shaped(s) && last < |s.on| && timeout > 0
    requires forall i :: 0 <= i < |s.on| ==> s.end[i] <= s.begin[i] + timeout
    requires forall t :: from <= t < s.begin[last] ==> Occupied(s, w, t)
    requires k > 0 ==> from + (k - 1) * timeout < s.begin[last]
    ensures |g| == k
    ensures forall a :: 0 <= a < |g| ==> g[a] < |s.on| && g[a] != last && s.on[g[a]] == w
    ensures forall a, b :: 0 <= a < b < |g| ==> g[a] != g[b]
  {
    g := SampleJobs(s, timeout, w, from, k, s.begin[last]);
    forall a | 0 <= a < k ensures g[a] != last && s.on[g[a]] == w {
      Multiples(a, k - 1, timeout);
      assert BusyAt(s, w, from + a * timeout, g[a]);
    }
  }

  /** While job `last` waits for a worker through `k` timeouts, every worker finishes `k` others. */
  lemma WaitingCostsJobs(s: Schedule, timeout: Duration, workers: nat, from: Time, k: nat, last: nat)
    requires Shaped(s) && last < |s.on| && timeout > 0
    requires forall i :: 0 <= i < |s.on| ==> s.end[i] <= s.begin[i] + timeout
    requires forall t, w :: from <= t < s.begin[last] && 0 <= w < workers ==> Occupied(s, w, t)
    requires k > 0 ==> from + (k - 1) * timeout < s.begin[last]
    ensures workers * k <= |s.on| - 1
  {
    hide Collected, BusyAt, Occupied;
    var f: seq<nat> := [];
    var w := 0;
    NothingCollected(s, last);
    while w < workers
      invariant w <= workers && |f| == w * k && Collected(s, f, w, last)
    {
      var g := SampleOthers(s, timeout, w, from, k, last);
      CollectMore(s, f, g, w, last);
      f := f + g;
      assert (w + 1) * k == w * k + k;
      w := w + 1;
    }
    CollectedFew(s, f, w, last);
  }

  /** A batch of n monitors is over no later than interval + ceil(n / workers) * timeout after it
      began, however the offsets fall and whichever idle worker takes a waiting job. */
  lemma MakespanBound(
    s: Schedule, start: Time, interval: Duration, timeout: Duration, workers: nat, hashes: seq<int>, i: nat)
    requires Runs(s, start, interval, timeout, workers, hashes) && i < |s.on|
    ensures workers > 0
    ensures s.end[i] <= start + (if interval > 0 then interval else 0) + CeilDiv(|s.on|, workers) * timeout
  {
    var n := |s.on|;
    var from := start + (if interval > 0 then interval else 0);
    assert s.on[i] < workers;
    OffsetInInterval(hashes[i], interval);
    assert timeout >= 0;
    assert CeilDiv(n, workers) >= 1 by {
      assert (n + workers - 1) / workers >= workers / workers;
    }
    if s.begin[i] <= from {
      Multiples(1, CeilDiv(n, workers), timeout);
    } else {
      assert timeout > 0 by {
        assert Occupied(s, 0, from);
        var j :| 0 <= j < n && BusyAt(s, 0, from, j);
      }
      var k := CeilDiv(s.begin[i] - from, timeout);
      CeilBounds(s.begin[i] - from, timeout);
      WaitingCostsJobs(s, timeout, workers, from, k, i);
      EnoughRounds(workers, k, n);
      Multiples(k + 1, CeilDiv(n, workers), timeout);
      assert (k + 1) * timeout == k * timeout + timeout;
    }
  }

  lemma CeilBounds(n: nat, d: nat)
    requires d > 0
    ensures n <= CeilDiv(n, d) * d
    ensures n > 0 ==> CeilDiv(n, d) > 0 && (CeilDiv(n, d) - 1) * d < n
  {
    var q := CeilDiv(n, d);
    assert n + d - 1 == q * d + (n + d - 1) % d;
    assert (q - 1) * d == q * d - d;
  }

  lemma EnoughRounds(workers: nat, k: nat, n: nat)
    requires workers > 0 && workers * k <= n - 1
    ensures k + 1 <= CeilDiv(n, workers)
  {
    var q := CeilDiv(n, workers);
    assert n + workers - 1 == q * workers + (n + workers - 1) % workers;
    if q <= k {
      Multiples(q, k, workers);
    }
  }
}
