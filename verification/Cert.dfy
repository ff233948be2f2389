/** The certificate alarm: once per crossing below fourteen days, re-armed by a renewal. */
module CertAlarm {
  import opened Monitoring

  const CERT_WARN_DAYS: int := 14
  const DAY: Duration := 24 * HOUR
  const MAX_DURATION: Duration := 0x7FFF_FFFF_FFFF_FFFF
  const MIN_DURATION: Duration := -0x8000_0000_0000_0000

  /** `time.Time.Sub`: the difference, saturated to a 64-bit Duration. */
  function TimeSub(t: Time, u: Time): Duration {
    var d := t - u;
    if d > MAX_DURATION then MAX_DURATION else if d < MIN_DURATION then MIN_DURATION else d
  }

  /** Whole days left, truncated toward zero as by Go's `int` conversion. */
  function DaysLeft(expiry: Time, now: Time): int {
    Truncated(TimeSub(expiry, now), DAY)
  }

  function Warned(warned: map<string, bool>, name: string): bool {
    name in warned && warned[name]
  }

  function CertStep(warned: map<string, bool>, name: string, daysLeft: int, hasCert: bool): map<string, bool> {
    if !hasCert then warned
    else if daysLeft < CERT_WARN_DAYS && Warned(warned, name) then warned
    else warned[name := daysLeft < CERT_WARN_DAYS]
  }

  predicate CertFires(warned: map<string, bool>, name: string, daysLeft: int, hasCert: bool) {
    hasCert && !Warned(warned, name) && Warned(CertStep(warned, name, daysLeft, hasCert), name)
  }

  class CertTracker {
    var warned: map<string, bool>

    constructor ()
      ensures warned == map[]
    {
      warned := map[];
    }

    method Observe(name: string, daysLeft: int, hasCert: bool) returns (fire: bool)
      modifies this
      ensures warned == CertStep(old(warned), name, daysLeft, hasCert)
      ensures fire == CertFires(old(warned), name, daysLeft, hasCert)
      ensures fire <==> hasCert && daysLeft <= 13 && !(name in old(warned) && old(warned)[name])
      ensures hasCert ==> (name in warned && warned[name] <==> daysLeft <= 13)
      ensures !hasCert ==> warned == old(warned)
      ensures forall n :: n != name ==> (n in warned <==> n in old(warned))
      ensures forall n :: n != name && n in warned ==> warned[n] == old(warned)[n]
    {
      if !hasCert {
        return false;
      }
      var below := daysLeft < CERT_WARN_DAYS;
      if below && !(name in warned && warned[name]) {
        warned := warned[name := true];
        return true;
      } else if !below {
        warned := warned[name := false];
      }
      return false;
    }
  }

  predicate HasCert(r: Result) {
    r.certExpiry != ZERO_TIME
  }

  /** The certificate runs out less than 14 times 24 hours after the check. */
  predicate ExpiresSoon(r: Result) {
    HasCert(r) && r.certExpiry - r.checkedAt < CERT_WARN_DAYS * DAY
  }

  /** Truncating toward zero, and saturating very large differences, never moves the alarm
      across the fourteen-day line, on either side of zero. */
  lemma DaysLeftBoundary(expiry: Time, now: Time)
    ensures DaysLeft(expiry, now) < CERT_WARN_DAYS <==> expiry - now < CERT_WARN_DAYS * DAY
  {
    var d := TimeSub(expiry, now);
    assert d < CERT_WARN_DAYS * DAY <==> expiry - now < CERT_WARN_DAYS * DAY;
    if d >= 0 {
      assert d == (d / DAY) * DAY + d % DAY;
    } else {
      assert (-d) / DAY >= 0;
    }
  }

  /** Days of 86,400 seconds, the rest dropped on either side of zero, as long as the difference fits
      a Duration, which spans some 292 years each way. */
  lemma DaysLeftMeans(expiry: Time, now: Time)
    requires -0x8000_0000_0000_0000 <= expiry - now <= 0x7FFF_FFFF_FFFF_FFFF
    ensures var days, left := DaysLeft(expiry, now), expiry - now;
            && (left >= 0 ==> days * 86_400_000_000_000 <= left < (days + 1) * 86_400_000_000_000)
            && (left < 0 ==> (days - 1) * 86_400_000_000_000 < left <= days * 86_400_000_000_000)
  {
    var left := expiry - now;
    if left < 0 {
      assert -left == (-left) / DAY * DAY + (-left) % DAY;
    }
  }

  /** The scheduler's use of the tracker: results without a certificate never reach it. */
  function CertAfter(warned: map<string, bool>, r: Result): map<string, bool> {
    CertStep(warned, r.monitorName, DaysLeft(r.certExpiry, r.checkedAt), HasCert(r))
  }

  function CertFold(rs: seq<Result>): map<string, bool> {
    if rs == [] then map[] else CertAfter(CertFold(rs[..|rs| - 1]), rs[|rs| - 1])
  }

  /** Result number `i` of a run over any monitors raises the certificate alert. */
  predicate CertFiresAt(rs: seq<Result>, i: nat)
    requires i < |rs|
  {
    var r := rs[i];
    CertFires(CertFold(rs[..i]), r.monitorName, DaysLeft(r.certExpiry, r.checkedAt), HasCert(r))
  }

  /** The most recent result of `name` that carried a certificate. */
  function LastReading(rs: seq<Result>, name: string): Option<Result> {
    if rs == [] then None
    else
      var r := rs[|rs| - 1];
      if r.monitorName == name && HasCert(r) then Some(r) else LastReading(rs[..|rs| - 1], name)
  }

  lemma {:induction false} WarnedMeansLastReadingSoon(rs: seq<Result>, name: string)
    ensures Warned(CertFold(rs), name) <==>
      LastReading(rs, name).Some? && ExpiresSoon(LastReading(rs, name).value)
  {
    if rs != [] {
      var r := rs[|rs| - 1];
      WarnedMeansLastReadingSoon(rs[..|rs| - 1], name);
      DaysLeftBoundary(r.certExpiry, r.checkedAt);
    }
  }

  /** Over a whole run, whatever monitors are interleaved: the alert fires exactly at readings
      below fourteen days whose previous certificate-bearing reading of the same monitor was not
      below, or did not exist. */
  lemma CertAlarmExact(rs: seq<Result>, i: nat)
    requires i < |rs|
    ensures var previous := LastReading(rs[..i], rs[i].monitorName);
            CertFiresAt(rs, i) <==>
              ExpiresSoon(rs[i]) && (previous.None? || !ExpiresSoon(previous.value))
  {
    WarnedMeansLastReadingSoon(rs[..i], rs[i].monitorName);
    DaysLeftBoundary(rs[i].certExpiry, rs[i].checkedAt);
  }
}
