/** internal/core/sidecar/server.go: the push version of the sidecar's xDS server. Every
    NextVersion call bumps an unsigned 64-bit counter that starts at zero and returns
    "<now in RFC 3339>/<counter in decimal>". The clock is a parameter. */
module XdsSidecarVersion {
  import opened Strings

  // ---------------------------------------------------------------------
  // time.Time.Format(time.RFC3339)
  // ---------------------------------------------------------------------

  /** A wall-clock reading: calendar fields and the zone's offset east of UTC in seconds. */
  datatype Time = Time(year: nat, month: nat, day: nat, hour: nat, minute: nat, second: nat, offsetSeconds: int)

  /** n in decimal, left-padded with zeros to at least width digits. */
  function Pad(n: nat, width: nat): (r: string)
    ensures AllDigits(r) && |r| >= width && |r| >= |Decimal(n)|
    ensures r[|r| - |Decimal(n)|..] == Decimal(n)
    ensures forall i :: 0 <= i < |r| - |Decimal(n)| ==> r[i] == '0'
  {
    var d := Decimal(n);
    if |d| >= width then d else seq(width - |d|, _ => '0') + d
  }

  /** The "Z07:00" element: Z at UTC, otherwise a sign and the offset's whole minutes as
      hh:mm. The offset is first divided by 60 with truncation, so an offset shorter than
      a minute is written "+00:00". */
  function Zone(offsetSeconds: int): (r: string)
    ensures offsetSeconds == 0 <==> r == "Z"
    ensures offsetSeconds != 0 ==> |r| >= 6 && r[0] == (if offsetSeconds <= -60 then '-' else '+')
  {
    if offsetSeconds == 0 then "Z"
    else
      var magnitude := if offsetSeconds < 0 then -offsetSeconds else offsetSeconds;
      var minutes := magnitude / 60;
      var sign := if offsetSeconds < 0 && minutes > 0 then "-" else "+";
      sign + Pad(minutes / 60, 2) + ":" + Pad(minutes % 60, 2)
  }

  /** "2006-01-02" */
  function Date(t: Time): string
  {
    Pad(t.year, 4) + "-" + Pad(t.month, 2) + "-" + Pad(t.day, 2)
  }

  /** "15:04:05" */
  function Clock(t: Time): string
  {
    Pad(t.hour, 2) + ":" + Pad(t.minute, 2) + ":" + Pad(t.second, 2)
  }

  /** The layout "2006-01-02T15:04:05Z07:00". */
  function Rfc3339(t: Time): string
  {
    Date(t) + "T" + Clock(t) + Zone(t.offsetSeconds)
  }

  lemma NoSlashInDigits(s: string)
    requires AllDigits(s)
    ensures '/' !in s
  {
    forall i | 0 <= i < |s| ensures s[i] != '/' {
      assert IsDigit(s[i]);
    }
  }

  lemma NoSlashInConcat(a: string, b: string)
    requires '/' !in a && '/' !in b
    ensures '/' !in a + b
  {
  }

  /** An RFC 3339 date-time holds no '/': only digits, '-', 'T', ':', '+' and 'Z'. */
  lemma {:induction false} Rfc3339HasNoSlash(t: Time)
    ensures '/' !in Rfc3339(t)
  {
    DateHasNoSlash(t);
    ClockHasNoSlash(t);
    ZoneHasNoSlash(t.offsetSeconds);
    NoSlashInConcat(Date(t), "T");
    NoSlashInConcat(Date(t) + "T", Clock(t));
    NoSlashInConcat(Date(t) + "T" + Clock(t), Zone(t.offsetSeconds));
  }

  lemma DateHasNoSlash(t: Time)
    ensures '/' !in Date(t)
  {
    NoSlashInDigits(Pad(t.year, 4));
    NoSlashInDigits(Pad(t.month, 2));
    NoSlashInDigits(Pad(t.day, 2));
  }

  lemma ClockHasNoSlash(t: Time)
    ensures '/' !in Clock(t)
  {
    NoSlashInDigits(Pad(t.hour, 2));
    NoSlashInDigits(Pad(t.minute, 2));
    NoSlashInDigits(Pad(t.second, 2));
  }

  lemma ZoneHasNoSlash(offsetSeconds: int)
    ensures '/' !in Zone(offsetSeconds)
  {
    if offsetSeconds != 0 {
      var magnitude := if offsetSeconds < 0 then -offsetSeconds else offsetSeconds;
      var minutes := magnitude / 60;
      NoSlashInDigits(Pad(minutes / 60, 2));
      NoSlashInDigits(Pad(minutes % 60, 2));
    }
  }

  /** A UTC instant in years 1000 to 9999 with two-digit fields is exactly 20 characters. */
  lemma Rfc3339UtcLength(t: Time)
    requires 1000 <= t.year < 10000 && t.month < 100 && t.day < 100
    requires t.hour < 100 && t.minute < 100 && t.second < 100 && t.offsetSeconds == 0
    ensures |Rfc3339(t)| == 20
  {
    DecimalLength(t.year, 4);
    DecimalLength(t.month, 2);
    DecimalLength(t.day, 2);
    DecimalLength(t.hour, 2);
    DecimalLength(t.minute, 2);
    DecimalLength(t.second, 2);
  }

  function Power10(k: nat): (p: nat)
    ensures p >= 1
  {
    if k == 0 then 1 else 10 * Power10(k - 1)
  }

  /** A number below 10^k takes at most k digits, and at least one. */
  lemma {:induction false} DecimalLength(n: nat, k: nat)
    requires k >= 1 && n < Power10(k)
    ensures |Decimal(n)| <= k
  {
    if n >= 10 {
      assert Power10(k) == 10 * Power10(k - 1);
      assert n / 10 < Power10(k - 1);
      DecimalLength(n / 10, k - 1);
      assert Decimal(n) == Decimal(n / 10) + [DigitChar(n % 10)];
    }
  }

  // ---------------------------------------------------------------------
  // The push-version counter
  // ---------------------------------------------------------------------

  /** atomic.Uint64 wraps to zero past 2^64 - 1. */
  const Uint64Modulus: nat := 0x1_0000_0000_0000_0000

  /** One Inc of the counter. */
  function Increment(n: nat): (r: nat)
    requires n < Uint64Modulus
    ensures r < Uint64Modulus
    ensures n + 1 < Uint64Modulus ==> r == n + 1
    ensures n + 1 == Uint64Modulus ==> r == 0
  {
    (n + 1) % Uint64Modulus
  }

  /** stamp + "/" + the counter in decimal: the counter is what follows the last '/'. */
  function Stamped(stamp: string, counter: nat): (v: string)
    ensures |v| > |stamp| && v[..|stamp|] == stamp && v[|stamp|] == '/'
    ensures AfterLast(v, '/') == Decimal(counter)
  {
    NoSlashInDigits(Decimal(counter));
    AfterLastSplits(stamp, '/', Decimal(counter));
    stamp + "/" + Decimal(counter)
  }

  /** The version string of a call at time now that moved the counter to counter. */
  function Version(now: Time, counter: nat): string
  {
    Stamped(Rfc3339(now), counter)
  }

  /** The '/' after the timestamp is the version's only one. */
  lemma {:induction false} VersionHasOneSlash(now: Time, counter: nat)
    ensures var v := Version(now, counter);
      v[|Rfc3339(now)|] == '/' && forall i :: 0 <= i < |v| && i != |Rfc3339(now)| ==> v[i] != '/'
  {
    var stamp := Rfc3339(now);
    var d := Decimal(counter);
    var v := Version(now, counter);
    assert v == stamp + "/" + d;
    Rfc3339HasNoSlash(now);
    NoSlashInDigits(d);
    forall i | 0 <= i < |v| && i != |stamp| ensures v[i] != '/' {
      if i < |stamp| {
        assert v[i] == stamp[i];
      } else {
        assert v[i] == d[i - |stamp| - 1];
      }
    }
  }

  /** Calls that leave different counters return different versions, whatever the clock
      reads. */
  lemma VersionsDistinct(now1: Time, now2: Time, c1: nat, c2: nat)
    ensures Version(now1, c1) == Version(now2, c2) ==> c1 == c2
  {
    DecimalInjective(c1, c2);
  }

  class XdsSidecar {
    /** The numeric push version, an unsigned 64-bit counter. */
    var pushVersion: nat

    ghost predicate Valid()
      reads this
    {
      pushVersion < Uint64Modulus
    }

    /** NewXdsSidecar: the counter starts at zero. */
    constructor ()
      ensures Valid() && pushVersion == 0
    {
      pushVersion := 0;
    }

    /** NextVersion: bumps the counter by one and formats the clock and the new counter. */
    method NextVersion(now: Time) returns (version: string)
      requires Valid()
      modifies this
      ensures Valid()
      ensures pushVersion == Increment(old(pushVersion))
      ensures version == Version(now, pushVersion)
      ensures AfterLast(version, '/') == Decimal(pushVersion)
    {
      pushVersion := Increment(pushVersion);
      version := Rfc3339(now) + "/" + Decimal(pushVersion);
    }
  }

  /** The first two calls on a new sidecar end in "/1" and "/2", and differ even when the
      clock has not moved. */
  method FirstTwoVersions(now1: Time, now2: Time) returns (v1: string, v2: string)
    ensures AfterLast(v1, '/') == "1" && AfterLast(v2, '/') == "2"
    ensures v1 != v2
  {
    var sidecar := new XdsSidecar();
    v1 := sidecar.NextVersion(now1);
    v2 := sidecar.NextVersion(now2);
    assert Decimal(1) == "1" && Decimal(2) == "2";
    VersionsDistinct(now1, now2, 1, 2);
  }
}
