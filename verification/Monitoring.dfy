/** The monitoring domain: results, raw states, and Go's time arithmetic. */
module Monitoring {

  datatype Option<+T> = None | Some(value: T)

  /** Nanoseconds since the Unix epoch. */
  type Time = int

  /** Nanoseconds, signed. */
  type Duration = int

  const MILLISECOND: int := 1_000_000
  const SECOND: int := 1_000_000_000
  const HOUR: int := 3600 * SECOND

  /** The zero `time.Time` is midnight, January 1 of year 1. */
  const ZERO_TIME: Time := -62_135_596_800 * SECOND

  datatype Monitor = Monitor(name: string, url: string)

  datatype State = Unknown | Up | Down {
    function Text(): string {
      match this
      case Up => "up"
      case Down => "down"
      case Unknown => "unknown"
    }
  }

  /** One probe result. `err` holds the error's text when the probe failed. */
  datatype Result = Result(
    monitorName: string,
    statusCode: int,
    latency: Duration,
    err: Option<string>,
    checkedAt: Time,
    certExpiry: Time,
    dns: Duration,
    connect: Duration,
    tls: Duration,
    ttfb: Duration
  ) {
    predicate IsUp() {
      err.None? && 200 <= statusCode < 300
    }

    function RawState(): State {
      if IsUp() then Up else Down
    }
  }

  /** What the HTTP prober can return: a failed request carries no status code. */
  predicate ProberShaped(r: Result) {
    r.err.Some? ==> r.statusCode == 0
  }

  /** Go's integer division: truncation toward zero. */
  function Truncated(n: int, d: int): int
    requires d > 0
  {
    if n >= 0 then n / d else -((-n) / d)
  }

  /** `time.Duration.Milliseconds` truncates toward zero. */
  function Milliseconds(d: Duration): int {
    Truncated(d, MILLISECOND)
  }

  /** `time.Time.Unix` rounds down, also before 1970. */
  function Unix(t: Time): int {
    t / SECOND
  }

  /** Whole milliseconds, the rest dropped on either side of zero. */
  lemma MillisecondsMeans(d: Duration)
    ensures d >= 0 ==> Milliseconds(d) * 1_000_000 <= d < (Milliseconds(d) + 1) * 1_000_000
    ensures d < 0 ==> (Milliseconds(d) - 1) * 1_000_000 < d <= Milliseconds(d) * 1_000_000
  {
    if d < 0 {
      assert -d == (-d) / MILLISECOND * MILLISECOND + (-d) % MILLISECOND;
    }
  }

  /** The whole second at or before, and the year 1. */
  lemma UnixMeans(t: Time)
    ensures Unix(t) * 1_000_000_000 <= t < (Unix(t) + 1) * 1_000_000_000
    ensures ZERO_TIME == -62_135_596_800_000_000_000
  {
  }

  /** What validation guarantees of a configured list, URL syntax aside. */
  predicate ValidList(ms: seq<Monitor>) {
    ms != [] && DistinctNames(ms) && forall i :: 0 <= i < |ms| ==> ms[i].name != "" && ms[i].url != ""
  }

  predicate DistinctNames(ms: seq<Monitor>) {
    forall i, j :: 0 <= i < j < |ms| ==> ms[i].name != ms[j].name
  }
}
