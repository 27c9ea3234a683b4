// Naive UTC datetimes, as `datetime.utcnow()` produces them, represented as
// microseconds since 1970-01-01T00:00:00 (a Thursday). Calendar fields are
// computed from the day count; Python's `weekday()` numbers Monday as 0.

module Clock {
  import Text

  type Instant = int

  const MicrosPerSecond: int := 1000000
  const MicrosPerHour: int := 3600000000
  const MicrosPerDay: int := 86400000000

  /** `timedelta(days=n)` in microseconds. */
  function Days(n: int): int { n * 86400000000 }

  function DayNumber(t: Instant): int { t / 86400000000 }

  function TimeOfDay(t: Instant): (r: int)
    ensures 0 <= r < MicrosPerDay
  {
    t % 86400000000
  }

  /** `t.weekday()`: 0 is Monday, 6 is Sunday. */
  function Weekday(t: Instant): (r: int)
    ensures 0 <= r < 7
  {
    (DayNumber(t) + 3) % 7
  }

  /** `t.hour`. */
  function Hour(t: Instant): (r: int)
    ensures 0 <= r < 24
  {
    TimeOfDay(t) / 3600000000
  }

  /** `t.microsecond`. */
  function Microsecond(t: Instant): (r: int)
    ensures 0 <= r < MicrosPerSecond
  {
    TimeOfDay(t) % 1000000
  }

  /** `t.replace(hour=0, minute=0, second=0, microsecond=0)`. */
  function Midnight(t: Instant): (r: Instant)
    ensures DayNumber(r) == DayNumber(t) && TimeOfDay(r) == 0
    ensures r <= t
  {
    t - TimeOfDay(t)
  }

  /** `t.replace(hour=23, minute=59, second=59)`: keeps the microsecond. */
  function LastSecond(t: Instant): (r: Instant)
    ensures DayNumber(r) == DayNumber(t)
    ensures TimeOfDay(r) == 86399 * MicrosPerSecond + Microsecond(t)
  {
    Midnight(t) + 86399000000 + Microsecond(t)
  }

  /** A day's midnight and last second bracket every instant of that day. */
  lemma DayBounds(t: Instant)
    ensures Midnight(t) <= t < Midnight(t) + MicrosPerDay
    ensures Midnight(t) <= LastSecond(t) < Midnight(t) + MicrosPerDay
  {
  }

  /** The last second of a day is no earlier than any instant of that day. */
  lemma LastSecondCovers(t: Instant)
    ensures t <= LastSecond(t)
  {
    var tod := TimeOfDay(t);
    assert tod == (tod / 1000000) * 1000000 + Microsecond(t);
    assert tod / 1000000 <= 86399;
  }

  /** Moving by whole days keeps the time of day and shifts the weekday. */
  lemma ShiftDays(t: Instant, k: int)
    ensures DayNumber(t - Days(k)) == DayNumber(t) - k
    ensures TimeOfDay(t - Days(k)) == TimeOfDay(t)
    ensures Weekday(t - Days(k)) == (Weekday(t) - k) % 7
  {
  }

  // ---------------------------------------------------------------------
  // isoformat()

  /** The proleptic Gregorian (year, month, day) of a day count since 1970-01-01. */
  function CivilFromDays(days: int): (int, int, int)
  {
    var z := days + 719468;
    var era := z / 146097;
    var doe := z - era * 146097;
    var yoe := (doe - doe / 1460 + doe / 36524 - doe / 146096) / 365;
    var doy := doe - (365 * yoe + yoe / 4 - yoe / 100);
    var mp := (5 * doy + 2) / 153;
    var d := doy - (153 * mp + 2) / 5 + 1;
    var m := if mp < 10 then mp + 3 else mp - 9;
    var y := yoe + era * 400 + (if m <= 2 then 1 else 0);
    (y, m, d)
  }

  function Pad(n: int, width: nat): string
  {
    if n < 0 then Text.IntToString(n) else Text.PadNat(n, width)
  }

  /** `t.isoformat()`: YYYY-MM-DDTHH:MM:SS, then .ffffff when the microsecond is not 0. */
  function IsoFormat(t: Instant): string
  {
    var (y, m, d) := CivilFromDays(DayNumber(t));
    var secs := TimeOfDay(t) / MicrosPerSecond;
    var micro := Microsecond(t);
    Pad(y, 4) + "-" + Pad(m, 2) + "-" + Pad(d, 2) + "T"
    + Pad(secs / 3600, 2) + ":" + Pad(secs / 60 % 60, 2) + ":" + Pad(secs % 60, 2)
    + (if micro == 0 then "" else "." + Pad(micro, 6))
  }

  /** A padded number is digits, with a leading minus sign when negative: never a '.'. */
  lemma PadHasNoDot(n: int, width: nat)
    ensures '.' !in Pad(n, width)
  {
    if n >= 0 {
      var d := Text.NatToString(n);
      if |d| < width {
        var zeros := seq(width - |d|, _ => '0');
        assert forall i :: 0 <= i < |zeros + d| ==> (zeros + d)[i] != '.';
      } else {
        assert forall i :: 0 <= i < |d| ==> d[i] != '.';
      }
    } else {
      var d := Text.NatToString(-n);
      assert forall i :: 0 <= i < |"-" + d| ==> ("-" + d)[i] != '.';
    }
  }

  /** The fraction ".ffffff" is written exactly when the microsecond is not 0. */
  lemma IsoFormatFraction(t: Instant)
    ensures '.' in IsoFormat(t) <==> Microsecond(t) != 0
  {
    var (y, m, d) := CivilFromDays(DayNumber(t));
    var secs := TimeOfDay(t) / MicrosPerSecond;
    var micro := Microsecond(t);
    PadHasNoDot(y, 4);
    PadHasNoDot(m, 2);
    PadHasNoDot(d, 2);
    PadHasNoDot(secs / 3600, 2);
    PadHasNoDot(secs / 60 % 60, 2);
    PadHasNoDot(secs % 60, 2);
    var date := Pad(y, 4) + "-" + Pad(m, 2) + "-" + Pad(d, 2) + "T"
                + Pad(secs / 3600, 2) + ":" + Pad(secs / 60 % 60, 2) + ":" + Pad(secs % 60, 2);
    assert '.' !in date;
    if micro != 0 {
      assert ("." + Pad(micro, 6))[0] == '.';
    }
  }
}
