/** The dashboard fold, the observer through which the two stores must look the same. */
module Dashboard {
  import opened Monitoring
  import opened Sequences
  import opened StateMachine
  import opened Codec

  datatype Check = Check(
    up: bool,
    latencyMs: int,
    at: int,
    statusCode: int,
    error: string,
    dnsMs: int,
    connectMs: int,
    tlsMs: int,
    ttfbMs: int
  )

  datatype Health = Health(
    name: string,
    url: string,
    state: string,
    latencyMs: int,
    uptimePct: real,
    recent: seq<Check>,
    certExpiry: int
  )

  function CheckOf(r: Result): Check {
    Check(r.IsUp(), Milliseconds(r.latency), Unix(r.checkedAt), r.statusCode,
          if r.err.Some? then r.err.value else "",
          Milliseconds(r.dns), Milliseconds(r.connect), Milliseconds(r.tls), Milliseconds(r.ttfb))
  }

  function ExpiryOf(r: Result): int {
    if r.certExpiry != ZERO_TIME then Unix(r.certExpiry) else 0
  }

  /** The card of one monitor: raw bars and uptime under the debounced state. */
  function HealthOf(m: Monitor, hist: seq<Result>, state: State): Health {
    if hist == [] then Health(m.name, m.url, state.Text(), 0, 0.0, [], 0)
    else
      var last := hist[|hist| - 1];
      Health(m.name, m.url, state.Text(), Milliseconds(last.latency),
             Count(Ups(hist), true) as real / |hist| as real * 100.0,
             Map(CheckOf, hist), ExpiryOf(last))
  }

  /** What one bar must show of one result, in the client's terms: green exactly for an answer with a
      2xx code and no error, times in whole milliseconds and seconds. */
  ghost predicate IsBar(c: Check, r: Result) {
    && (c.up <==> r.err.None? && 200 <= r.statusCode <= 299)
    && c.statusCode == r.statusCode
    && (r.err.None? ==> c.error == "") && (r.err.Some? ==> c.error == r.err.value)
    && c.at * 1_000_000_000 <= r.checkedAt < (c.at + 1) * 1_000_000_000
    && InMilliseconds(c.latencyMs, r.latency) && InMilliseconds(c.dnsMs, r.dns)
    && InMilliseconds(c.connectMs, r.connect) && InMilliseconds(c.tlsMs, r.tls) && InMilliseconds(c.ttfbMs, r.ttfb)
  }

  predicate InMilliseconds(ms: int, d: Duration) {
    if d >= 0 then ms * 1_000_000 <= d < (ms + 1) * 1_000_000 else (ms - 1) * 1_000_000 < d <= ms * 1_000_000
  }

  /** The green bars. */
  function Greens(bars: seq<Check>): set<nat> {
    set i: nat | i < |bars| && bars[i].up
  }

  /** What a card must show of a monitor, its history and its debounced state. */
  ghost predicate IsCard(dto: Health, m: Monitor, hist: seq<Result>, state: State) {
    && dto.name == m.name && dto.url == m.url
    && (state == Up ==> dto.state == "up") && (state == Down ==> dto.state == "down")
    && (state == Unknown ==> dto.state == "unknown")
    && |dto.recent| == |hist|
    && (forall i :: 0 <= i < |hist| ==> IsBar(dto.recent[i], hist[i]))
    && dto.uptimePct * |hist| as real == 100.0 * |Greens(dto.recent)| as real
    && (hist == [] ==> dto.uptimePct == 0.0 && dto.latencyMs == 0 && dto.certExpiry == 0)
    && (hist != [] ==>
      var last := hist[|hist| - 1];
      && dto.latencyMs == dto.recent[|hist| - 1].latencyMs
      && (last.certExpiry == -62_135_596_800_000_000_000 ==> dto.certExpiry == 0)
      && (last.certExpiry != -62_135_596_800_000_000_000 ==>
        dto.certExpiry * 1_000_000_000 <= last.certExpiry < (dto.certExpiry + 1) * 1_000_000_000))
  }

  lemma BarShows(r: Result)
    ensures IsBar(CheckOf(r), r)
  {
    MillisecondsMeans(r.latency);
    MillisecondsMeans(r.dns);
    MillisecondsMeans(r.connect);
    MillisecondsMeans(r.tls);
    MillisecondsMeans(r.ttfb);
    UnixMeans(r.checkedAt);
  }

  lemma {:induction false} CountMeans(ups: seq<bool>, bars: seq<Check>)
    requires |bars| == |ups| && forall i :: 0 <= i < |ups| ==> bars[i].up == ups[i]
    ensures Count(ups, true) == |Greens(bars)|
  {
    if ups == [] {
      assert Greens(bars) == {};
    } else {
      var n := |ups| - 1;
      CountMeans(ups[..n], bars[..n]);
      assert Greens(bars) == if ups[n] then Greens(bars[..n]) + {n} else Greens(bars[..n]);
    }
  }

  /** A number of green bars as a percentage. */
  lemma PercentMeans(up: nat, n: nat)
    requires n > 0
    ensures up as real / n as real * 100.0 * n as real == 100.0 * up as real
  {
    var q := up as real / n as real;
    assert q * n as real == up as real;
    assert q * 100.0 * n as real == q * n as real * 100.0;
  }

  lemma UptimeShows(m: Monitor, hist: seq<Result>, state: State)
    ensures var dto := HealthOf(m, hist, state);
            dto.uptimePct * |hist| as real == 100.0 * |Greens(dto.recent)| as real
  {
    hide CheckOf, Count, Milliseconds, Greens;
    var dto := HealthOf(m, hist, state);
    forall i | 0 <= i < |hist| ensures dto.recent[i].up == Ups(hist)[i] {
      UpShown(hist[i]);
    }
    CountMeans(Ups(hist), dto.recent);
    if hist == [] {
      assert Count(Ups(hist), true) == 0 by {
        NoBarsYet(hist);
        assert hist[..0] == hist;
      }
    } else {
      PercentMeans(Count(Ups(hist), true), |hist|);
    }
  }

  lemma CardFields(m: Monitor, hist: seq<Result>, state: State)
    ensures var dto := HealthOf(m, hist, state);
            && dto.name == m.name && dto.url == m.url && dto.state == state.Text()
            && |dto.recent| == |hist| && (forall i :: 0 <= i < |hist| ==> dto.recent[i] == CheckOf(hist[i]))
            && (hist == [] ==> dto.uptimePct == 0.0 && dto.latencyMs == 0 && dto.certExpiry == 0)
            && (hist != [] ==> dto.latencyMs == dto.recent[|hist| - 1].latencyMs)
            && (hist != [] ==> dto.certExpiry == ExpiryOf(hist[|hist| - 1]))
  {
    hide Count, Milliseconds, Unix;
  }

  lemma CardShows(m: Monitor, hist: seq<Result>, state: State)
    ensures IsCard(HealthOf(m, hist, state), m, hist, state)
  {
    hide IsBar, CheckOf, HealthOf, Greens;
    var dto := HealthOf(m, hist, state);
    CardFields(m, hist, state);
    UptimeShows(m, hist, state);
    forall i | 0 <= i < |hist| ensures IsBar(dto.recent[i], hist[i]) {
      BarShows(hist[i]);
    }
    if hist != [] {
      UnixMeans(hist[|hist| - 1].certExpiry);
    }
  }

  /** Full marks mean that all bars are green, none that none is. */
  lemma UptimeExtremes(dto: Health, m: Monitor, hist: seq<Result>, state: State)
    requires IsCard(dto, m, hist, state) && hist != []
    ensures dto.uptimePct == 100.0 <==> forall i :: 0 <= i < |hist| ==> dto.recent[i].up
    ensures dto.uptimePct == 0.0 <==> forall i :: 0 <= i < |hist| ==> !dto.recent[i].up
  {
    hide IsBar, Greens;
    GreensOf(dto.recent);
    ShareExtremes(dto.uptimePct, |hist|, |Greens(dto.recent)|);
  }

  lemma ShareExtremes(p: real, n: nat, g: nat)
    requires n > 0 && p * n as real == 100.0 * g as real
    ensures p == 100.0 <==> g == n
    ensures p == 0.0 <==> g == 0
  {
    if p == 100.0 {
      assert 100.0 * n as real == 100.0 * g as real;
    }
    if g == n {
      SameFactor(p, 100.0, n as real);
    }
    if g == 0 {
      SameFactor(p, 0.0, n as real);
    }
  }

  lemma SameFactor(a: real, b: real, c: real)
    requires c > 0.0 && a * c == b * c
    ensures a == b
  {
    assert (a - b) * c == 0.0;
  }

  lemma GreensOf(bars: seq<Check>)
    ensures |Greens(bars)| == |bars| <==> forall i :: 0 <= i < |bars| ==> bars[i].up
    ensures |Greens(bars)| == 0 <==> forall i :: 0 <= i < |bars| ==> !bars[i].up
  {
    var all := Below(|bars|);
    BelowSize(|bars|);
    if i: nat :| i < |bars| && !bars[i].up {
      assert Greens(bars) <= all - {i};
      SubsetSize(Greens(bars), all - {i});
    } else {
      assert Greens(bars) == all;
    }
    if i :| 0 <= i < |bars| && bars[i].up {
      assert i in Greens(bars);
    } else {
      assert Greens(bars) == {};
    }
  }

  method BuildHealth(m: Monitor, hist: seq<Result>, state: State) returns (dto: Health)
    ensures dto == HealthOf(m, hist, state)
    ensures 0.0 <= dto.uptimePct <= 100.0
    ensures IsCard(dto, m, hist, state)
  {
    hide Count, Ups, Map, CheckOf, IsCard;
    CardShows(m, hist, state);
    dto := Health(m.name, m.url, state.Text(), 0, 0.0, [], 0);
    NoBarsYet(hist);
    if |hist| == 0 {
      return;
    }
    var recent: seq<Check> := [];
    var up := 0;
    for i := 0 to |hist|
      invariant up == Count(Ups(hist[..i]), true) <= i
      invariant recent == Map(CheckOf, hist[..i])
    {
      var r := hist[i];
      var isUp := r.RawState() == Up;
      OneMoreBar(hist, i);
      if isUp {
        up := up + 1;
      }
      var errStr := "";
      if r.err.Some? {
        errStr := r.err.value;
      }
      recent := recent + [Check(isUp, Milliseconds(r.latency), Unix(r.checkedAt), r.statusCode, errStr,
                                Milliseconds(r.dns), Milliseconds(r.connect), Milliseconds(r.tls),
                                Milliseconds(r.ttfb))];
      BarOf(r, errStr);
    }
    assert hist[..|hist|] == hist;
    var last := hist[|hist| - 1];
    dto := dto.(latencyMs := Milliseconds(last.latency),
                uptimePct := up as real / |hist| as real * 100.0,
                recent := recent);
    if last.certExpiry != ZERO_TIME {
      dto := dto.(certExpiry := Unix(last.certExpiry));
    }
    UptimeInRange(up, |hist|);
  }

  lemma NoBarsYet(hist: seq<Result>)
    ensures Count(Ups(hist[..0]), true) == 0 && Map(CheckOf, hist[..0]) == []
  {
  }

  lemma BarOf(r: Result, error: string)
    requires error == if r.err.Some? then r.err.value else ""
    ensures CheckOf(r) == Check(r.IsUp(), Milliseconds(r.latency), Unix(r.checkedAt), r.statusCode, error,
                                Milliseconds(r.dns), Milliseconds(r.connect), Milliseconds(r.tls), Milliseconds(r.ttfb))
  {
  }

  lemma OneMoreBar(hist: seq<Result>, i: nat)
    requires i < |hist|
    ensures Count(Ups(hist[..i + 1]), true) == Count(Ups(hist[..i]), true) + (if hist[i].IsUp() then 1 else 0)
    ensures Map(CheckOf, hist[..i + 1]) == Map(CheckOf, hist[..i]) + [CheckOf(hist[i])]
  {
    assert hist[..i + 1] == hist[..i] + [hist[i]];
    UpsAppend(hist[..i], hist[i]);
  }

  lemma UptimeInRange(up: nat, n: nat)
    requires up <= n && n > 0
    ensures 0.0 <= up as real / n as real * 100.0 <= 100.0
  {
    assert up as real / n as real <= 1.0;
    assert up as real / n as real >= 0.0;
  }

  // ---------- the same card from either store ----------

  /** An error without text on a 2xx answer is the one result whose bar changes colour. */
  predicate BarFlips(r: Result) {
    ErrorVanishes(r) && 200 <= r.statusCode < 300
  }

  lemma CheckSurvivesStorage(r: Result)
    ensures CheckOf(Stored(r)) == CheckOf(r) <==> !BarFlips(r)
  {
    StoredReadings(r);
  }

  lemma ExpirySurvivesStorage(r: Result)
    ensures ExpiryOf(Stored(r)) == ExpiryOf(r) <==> !ExpiryVanishes(r.certExpiry)
  {
    UnixOfWhole(Unix(r.certExpiry));
    WholeSeconds(Unix(r.certExpiry) * SECOND);
  }

  lemma UpShown(r: Result)
    ensures CheckOf(r).up == r.IsUp()
  {
  }

  /** For every history, the card built from what the row store gives back equals the card built
      from the original results, field by field, exactly when no bar flips and the newest
      certificate expiry does not vanish. */
  lemma SameCardFromStorage(m: Monitor, hist: seq<Result>, state: State)
    ensures HealthOf(m, Map(Stored, hist), state) == HealthOf(m, hist, state) <==>
      && (forall i :: 0 <= i < |hist| ==> !BarFlips(hist[i]))
      && (hist != [] ==> !ExpiryVanishes(hist[|hist| - 1].certExpiry))
  {
    hide CheckOf, Stored, BarFlips, ExpiryOf, Count, Milliseconds, ExpiryVanishes;
    var stored := Map(Stored, hist);
    forall i | 0 <= i < |hist|
      ensures CheckOf(stored[i]) == CheckOf(hist[i]) <==> !BarFlips(hist[i])
    {
      CheckSurvivesStorage(hist[i]);
    }
    if hist != [] {
      var n := |hist| - 1;
      StoredReadings(hist[n]);
      ExpirySurvivesStorage(hist[n]);
      var a, b := HealthOf(m, stored, state), HealthOf(m, hist, state);
      if forall i :: 0 <= i < |hist| ==> !BarFlips(hist[i]) {
        assert a.recent == b.recent;
        assert Ups(stored) == Ups(hist) by {
          forall i | 0 <= i < |hist| ensures stored[i].IsUp() == hist[i].IsUp() {
            UpShown(stored[i]);
            UpShown(hist[i]);
          }
        }
      } else {
        var i :| 0 <= i < |hist| && BarFlips(hist[i]);
        assert a.recent[i] != b.recent[i];
      }
    }
  }

  /** Results of the HTTP prober, with the whole-second expiries X.509 can express. */
  ghost predicate Probed(hist: seq<Result>) {
    forall i :: 0 <= i < |hist| ==> ProberShaped(hist[i]) && hist[i].certExpiry % SECOND == 0
  }

  /** What the prober found always gives the same card. */
  lemma SameCardForProbedResults(m: Monitor, hist: seq<Result>, state: State)
    requires Probed(hist)
    ensures HealthOf(m, Map(Stored, hist), state) == HealthOf(m, hist, state)
  {
    hide HealthOf, Stored;
    forall i | 0 <= i < |hist| ensures !BarFlips(hist[i]) && !ExpiryVanishes(hist[i].certExpiry) {
      assert ProberShaped(hist[i]) && hist[i].certExpiry % SECOND == 0;
    }
    SameCardFromStorage(m, hist, state);
  }
}
