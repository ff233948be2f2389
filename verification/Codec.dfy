/** The row codec of the SQLite store: what a result loses on its way through a row. */
module Codec {
  import opened Monitoring

  datatype Row = Row(
    id: nat,
    monitorName: string,
    statusCode: int,
    latencyMs: int,
    err: string,
    checkedAt: int,
    certExpiry: int,
    dnsMs: int,
    connectMs: int,
    tlsMs: int,
    ttfbMs: int
  )

  function Encode(id: nat, r: Result): Row {
    Row(
      id,
      r.monitorName,
      r.statusCode,
      Milliseconds(r.latency),
      if r.err.Some? then r.err.value else "",
      Unix(r.checkedAt),
      if r.certExpiry != ZERO_TIME then Unix(r.certExpiry) else 0,
      Milliseconds(r.dns),
      Milliseconds(r.connect),
      Milliseconds(r.tls),
      Milliseconds(r.ttfb))
  }

  /** `scanResult`: the name comes from the query, not from the row. */
  function Decode(row: Row, name: string): Result {
    Result(
      name,
      row.statusCode,
      row.latencyMs * MILLISECOND,
      if row.err != "" then Some(row.err) else None,
      row.checkedAt * SECOND,
      if row.certExpiry != 0 then row.certExpiry * SECOND else ZERO_TIME,
      row.dnsMs * MILLISECOND,
      row.connectMs * MILLISECOND,
      row.tlsMs * MILLISECOND,
      row.ttfbMs * MILLISECOND)
  }

  /** What is read back after saving `r`. */
  function Stored(r: Result): Result {
    Decode(Encode(0, r), r.monitorName)
  }

  /** What is read back of a saved result, in literal terms: milliseconds and seconds in nanoseconds. */
  lemma StoredMeans(r: Result)
    ensures var s := Stored(r);
            && s.monitorName == r.monitorName && s.statusCode == r.statusCode
            && (s.err == if r.err == Some("") then None else r.err)
            && s.checkedAt % 1_000_000_000 == 0 && s.checkedAt <= r.checkedAt < s.checkedAt + 1_000_000_000
            && s.latency % 1_000_000 == 0 && s.dns % 1_000_000 == 0 && s.connect % 1_000_000 == 0
            && s.tls % 1_000_000 == 0 && s.ttfb % 1_000_000 == 0
            && (r.latency >= 0 ==> s.latency <= r.latency < s.latency + 1_000_000)
            && (r.latency < 0 ==> s.latency - 1_000_000 < r.latency <= s.latency)
            && (r.certExpiry == ZERO_TIME || 0 <= r.certExpiry < 1_000_000_000 ==> s.certExpiry == ZERO_TIME)
            && (r.certExpiry != ZERO_TIME && !(0 <= r.certExpiry < 1_000_000_000) ==>
              s.certExpiry % 1_000_000_000 == 0 && s.certExpiry <= r.certExpiry < s.certExpiry + 1_000_000_000)
  {
    MillisecondsMeans(r.latency);
    UnixMeans(r.checkedAt);
    UnixMeans(r.certExpiry);
  }

  lemma MillisecondsOfWhole(ms: int)
    ensures Milliseconds(ms * MILLISECOND) == ms
  {
    if ms >= 0 {
      assert ms * MILLISECOND / MILLISECOND == ms;
    } else {
      assert -(ms * MILLISECOND) == (-ms) * MILLISECOND;
      assert (-ms) * MILLISECOND / MILLISECOND == -ms;
    }
  }

  lemma UnixOfWhole(s: int)
    ensures Unix(s * SECOND) == s
  {
  }

  predicate WholeMilliseconds(d: Duration) {
    d % MILLISECOND == 0
  }

  lemma MillisecondsExact(d: Duration)
    ensures Milliseconds(d) * MILLISECOND == d <==> WholeMilliseconds(d)
  {
    if d < 0 {
      assert d == -(-d);
      var q := (-d) / MILLISECOND;
      assert -d == q * MILLISECOND + (-d) % MILLISECOND;
      if d % MILLISECOND == 0 {
        assert d == (d / MILLISECOND) * MILLISECOND;
        MillisecondsOfWhole(d / MILLISECOND);
      }
    }
  }

  /** A stored certificate expiry survives as a dashboard reading unless it lies strictly inside
      the first second after the zero time, where rounding down makes it the zero time itself. */
  predicate ExpiryVanishes(t: Time) {
    ZERO_TIME < t < ZERO_TIME + SECOND
  }

  /** An error without text looks like no error at all once stored. */
  predicate ErrorVanishes(r: Result) {
    r.err == Some("")
  }

  /** The observable content of a result: milliseconds, seconds and text, as rows keep them. */
  lemma StoredReadings(r: Result)
    ensures var s := Stored(r);
            && s.monitorName == r.monitorName && s.statusCode == r.statusCode
            && Milliseconds(s.latency) == Milliseconds(r.latency)
            && Milliseconds(s.dns) == Milliseconds(r.dns)
            && Milliseconds(s.connect) == Milliseconds(r.connect)
            && Milliseconds(s.tls) == Milliseconds(r.tls)
            && Milliseconds(s.ttfb) == Milliseconds(r.ttfb)
            && Unix(s.checkedAt) == Unix(r.checkedAt)
            && (s.err == r.err <==> !ErrorVanishes(r))
            && (ErrorVanishes(r) ==> s.err == None)
            && s.checkedAt <= r.checkedAt < s.checkedAt + SECOND
  {
    MillisecondsOfWhole(Milliseconds(r.latency));
    MillisecondsOfWhole(Milliseconds(r.dns));
    MillisecondsOfWhole(Milliseconds(r.connect));
    MillisecondsOfWhole(Milliseconds(r.tls));
    MillisecondsOfWhole(Milliseconds(r.ttfb));
    UnixOfWhole(Unix(r.checkedAt));
  }

  predicate ExactlyStorable(r: Result) {
    && WholeMilliseconds(r.latency) && WholeMilliseconds(r.dns) && WholeMilliseconds(r.connect)
    && WholeMilliseconds(r.tls) && WholeMilliseconds(r.ttfb)
    && r.checkedAt % SECOND == 0
    && !ErrorVanishes(r)
    && (r.certExpiry == ZERO_TIME || (r.certExpiry % SECOND == 0 && r.certExpiry != 0))
  }

  /** The round trip is the identity on exactly the results whose fields a row can hold. */
  lemma RoundTripExact(r: Result)
    ensures Stored(r) == r <==> ExactlyStorable(r)
  {
    MillisecondsExact(r.latency);
    MillisecondsExact(r.dns);
    MillisecondsExact(r.connect);
    MillisecondsExact(r.tls);
    MillisecondsExact(r.ttfb);
    StoredReadings(r);
    WholeSeconds(r.checkedAt);
    WholeSeconds(r.certExpiry);
  }

  lemma WholeSeconds(t: Time)
    ensures Unix(t) * SECOND == t <==> t % SECOND == 0
    ensures Unix(t) == 0 && t % SECOND == 0 <==> t == 0
    ensures Unix(ZERO_TIME) * SECOND == ZERO_TIME && Unix(ZERO_TIME) != 0
  {
  }

  /** Storing what was read back loses nothing further. */
  lemma StoringIsIdempotent(r: Result)
    ensures Stored(Stored(r)) == Stored(r)
  {
    StoredReadings(r);
    UnixOfWhole(Unix(r.certExpiry));
  }
}
