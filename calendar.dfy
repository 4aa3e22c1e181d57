/** Proleptic Gregorian dates and times in UTC, as Python's `datetime` represents them
    (years 1 to 9999, whole seconds), with the renderings the handlers produce. */
module Calendar {
  import opened Wrappers
  import opened Text

  datatype Date = Date(year: nat, month: nat, day: nat)

  /** An instant in UTC. Event times carry whole seconds, so there is no microsecond part. */
  datatype DateTime = DateTime(date: Date, hour: nat, minute: nat, second: nat)

  const SecondsPerDay: int := 86400

  /** `date(1970, 1, 1).toordinal()`. */
  const UnixEpochOrdinal: int := 719163

  predicate IsLeapYear(y: int)
  {
    y % 4 == 0 && (y % 100 != 0 || y % 400 == 0)
  }

  function DaysInMonth(y: int, m: int): (n: int)
    requires 1 <= m <= 12
    ensures 28 <= n <= 31
    ensures m == 2 ==> (n == 29 <==> IsLeapYear(y))
  {
    if m == 2 then (if IsLeapYear(y) then 29 else 28)
    else [31, 28, 31, 30, 31, 30, 31, 31, 30, 31, 30, 31][m - 1]
  }

  predicate IsValidDate(d: Date)
  {
    1 <= d.year <= 9999 && 1 <= d.month <= 12 && 1 <= d.day <= DaysInMonth(d.year, d.month)
  }

  predicate IsValidDateTime(t: DateTime)
  {
    IsValidDate(t.date) && 0 <= t.hour < 24 && 0 <= t.minute < 60 && 0 <= t.second < 60
  }

  /** Days in all years before `y` (Python's `_days_before_year`). */
  function DaysBeforeYear(y: int): int
    requires y >= 1
  {
    var p := y - 1;
    p * 365 + p / 4 - p / 100 + p / 400
  }

  /** Days in the months of year `y` before month `m` (Python's `_days_before_month`). */
  function DaysBeforeMonth(y: int, m: int): int
    requires 1 <= m <= 12
  {
    [0, 31, 59, 90, 120, 151, 181, 212, 243, 273, 304, 334][m - 1]
      + (if m > 2 && IsLeapYear(y) then 1 else 0)
  }

  /** `d.toordinal()`: 0001-01-01 is day 1. */
  function Ordinal(d: Date): int
    requires IsValidDate(d)
  {
    DaysBeforeYear(d.year) + DaysBeforeMonth(d.year, d.month) + d.day
  }

  /** `t.timestamp()` for an aware UTC datetime, in whole seconds. */
  function EpochSeconds(t: DateTime): int
    requires IsValidDateTime(t)
  {
    (Ordinal(t.date) - UnixEpochOrdinal) * SecondsPerDay + t.hour * 3600 + t.minute * 60 + t.second
  }

  /** `d - timedelta(days=1)`; 0001-01-01 has no predecessor (Python raises OverflowError). */
  function PrevDay(d: Date): (p: Date)
    requires IsValidDate(d) && d != Date(1, 1, 1)
    ensures IsValidDate(p)
  {
    if d.day > 1 then Date(d.year, d.month, d.day - 1)
    else if d.month > 1 then Date(d.year, d.month - 1, DaysInMonth(d.year, d.month - 1))
    else Date(d.year - 1, 12, 31)
  }

  /** The number of days whose ordinals differ by one between the last day of year `y`
      and the first day of year `y + 1` is the length of year `y`. */
  lemma YearLength(y: int)
    requires y >= 1
    ensures DaysBeforeYear(y + 1) - DaysBeforeYear(y) == if IsLeapYear(y) then 366 else 365
  {
    var p := y - 1;
    assert DaysBeforeYear(y) == p * 365 + p / 4 - p / 100 + p / 400;
    assert DaysBeforeYear(y + 1) == y * 365 + y / 4 - y / 100 + y / 400;
    StepDiv(y, 4);
    StepDiv(y, 100);
    StepDiv(y, 400);
    Divides(y);
  }

  /** Every multiple of 400 is a multiple of 100, and every multiple of 100 a multiple of 4. */
  lemma Divides(y: int)
    ensures y % 400 == 0 ==> y % 100 == 0
    ensures y % 100 == 0 ==> y % 4 == 0
  {
    if y % 400 == 0 {
      var q, p, r := y / 400, y / 100, y % 100;
      assert y == 400 * q && y == 100 * p + r && 0 <= r < 100;
      assert 100 * (p - 4 * q) == -r;
    }
    if y % 100 == 0 {
      var q, p, r := y / 100, y / 4, y % 4;
      assert y == 100 * q && y == 4 * p + r && 0 <= r < 4;
      assert 4 * (p - 25 * q) == -r;
    }
  }

  /** Moving from `n - 1` to `n` raises `n / k` by one exactly when `k` divides `n`. */
  lemma StepDiv(n: int, k: int)
    requires k == 4 || k == 100 || k == 400
    ensures n / k - (n - 1) / k == if n % k == 0 then 1 else 0
  {
    if k == 4 {
      assert n / 4 - (n - 1) / 4 == if n % 4 == 0 then 1 else 0;
    } else if k == 100 {
      assert n / 100 - (n - 1) / 100 == if n % 100 == 0 then 1 else 0;
    } else {
      assert n / 400 - (n - 1) / 400 == if n % 400 == 0 then 1 else 0;
    }
  }

  /** The day before `d` is one ordinal earlier. */
  lemma PrevDayOrdinal(d: Date)
    requires IsValidDate(d) && d != Date(1, 1, 1)
    ensures Ordinal(PrevDay(d)) == Ordinal(d) - 1
  {
    if d.day == 1 && d.month == 1 {
      NewYear(d.year - 1);
    } else if d.day == 1 {
      MonthStep(d.year, d.month - 1);
    }
  }

  /** The first day of a year follows the last day of the year before. */
  lemma NewYear(y: int)
    requires 1 <= y < 9999
    ensures Ordinal(Date(y + 1, 1, 1)) == Ordinal(Date(y, 12, 31)) + 1
  {
    assert DaysBeforeMonth(y, 12) + 31 == if IsLeapYear(y) then 366 else 365;
    YearLength(y);
  }

  /** The days before month `m + 1` are those before month `m` and the days of `m`. */
  lemma MonthStep(y: int, m: int)
    requires 1 <= m < 12
    ensures DaysBeforeMonth(y, m + 1) == DaysBeforeMonth(y, m) + DaysInMonth(y, m)
  {
    if m == 1 {
    } else if m == 2 {
    } else {
      assert m > 2;
    }
  }

  /** `date.max.toordinal()`: the ordinal of 9999-12-31. */
  const MaxOrdinal: int := 3652059

  /** `d + timedelta(days=1)`; 9999-12-31 has no successor (Python raises OverflowError). */
  function NextDay(d: Date): (n: Date)
    requires IsValidDate(d) && d != Date(9999, 12, 31)
    ensures IsValidDate(n)
  {
    if d.day < DaysInMonth(d.year, d.month) then Date(d.year, d.month, d.day + 1)
    else if d.month < 12 then Date(d.year, d.month + 1, 1)
    else Date(d.year + 1, 1, 1)
  }

  /** The day after `d` is one ordinal later. */
  lemma NextDayOrdinal(d: Date)
    requires IsValidDate(d) && d != Date(9999, 12, 31)
    ensures Ordinal(NextDay(d)) == Ordinal(d) + 1
  {
    if d.day == DaysInMonth(d.year, d.month) && d.month == 12 {
      NewYear(d.year);
    } else if d.day == DaysInMonth(d.year, d.month) {
      MonthStep(d.year, d.month);
    }
  }

  /** From year `y` on, every year adds at least 365 days before year 9999. */
  lemma {:induction false} DaysBeforeYearBound(y: int)
    requires 1 <= y <= 9999
    ensures DaysBeforeYear(y) + 365 * (9999 - y) <= DaysBeforeYear(9999)
    decreases 9999 - y
  {
    if y < 9999 {
      DaysBeforeYearBound(y + 1);
      YearLength(y);
    }
  }

  /** Every valid date has an ordinal between that of 0001-01-01 and that of 9999-12-31. */
  lemma OrdinalBounds(d: Date)
    requires IsValidDate(d)
    ensures 1 <= Ordinal(d) <= MaxOrdinal
  {
    var p := d.year - 1;
    assert p / 4 >= p / 100 && p / 400 >= 0;
    assert DaysBeforeMonth(d.year, d.month) + DaysInMonth(d.year, d.month)
      <= if IsLeapYear(d.year) then 366 else 365;
    if d.year < 9999 {
      YearLength(d.year);
      DaysBeforeYearBound(d.year + 1);
    }
  }

  /** `d + timedelta(days=n)`, one day at a time; `None` is the OverflowError Python raises
      when the result would fall outside the years 1 to 9999. */
  function ShiftDate(d: Date, n: int): (r: Option<Date>)
    requires IsValidDate(d)
    ensures r.Some? <==> 1 <= Ordinal(d) + n <= MaxOrdinal
    ensures r.Some? ==> IsValidDate(r.value) && Ordinal(r.value) == Ordinal(d) + n
    decreases if n >= 0 then n else -n
  {
    if n == 0 then
      OrdinalBounds(d);
      Some(d)
    else if n > 0 then
      if d == Date(9999, 12, 31) then None
      else
        NextDayOrdinal(d);
        ShiftDate(NextDay(d), n - 1)
    else
      if d == Date(1, 1, 1) then None
      else
        PrevDayOrdinal(d);
        ShiftDate(PrevDay(d), n + 1)
  }

  /** `t + timedelta(days=n)`: the date moves, the time of day stays. */
  function AddDays(t: DateTime, n: int): (r: Option<DateTime>)
    requires IsValidDateTime(t)
    ensures r.Some? <==> 1 <= Ordinal(t.date) + n <= MaxOrdinal
    ensures r.Some? ==> IsValidDateTime(r.value) && EpochSeconds(r.value) == EpochSeconds(t) + n * SecondsPerDay
  {
    match ShiftDate(t.date, n)
    case None => None
    case Some(d) => Some(DateTime(d, t.hour, t.minute, t.second))
  }

  /** `d.isoformat()`: `YYYY-MM-DD`. */
  function DateIso(d: Date): string
    requires IsValidDate(d)
  {
    Padded(d.year, 4) + "-" + Padded(d.month, 2) + "-" + Padded(d.day, 2)
  }

  /** `t.isoformat(sep='T')` for an aware UTC datetime with whole seconds:
      `YYYY-MM-DDTHH:MM:SS+00:00`. */
  function IsoFormat(t: DateTime): (s: string)
    requires IsValidDateTime(t)
    ensures |s| == 25 && s[4] == '-' && s[7] == '-' && s[10] == 'T' && s[13] == ':' && s[16] == ':'
    ensures s[19..] == "+00:00"
    ensures forall i :: 0 <= i < 19 && i != 4 && i != 7 && i != 10 && i != 13 && i != 16 ==> IsDigit(s[i])
  {
    DateIso(t.date) + "T" + Padded(t.hour, 2) + ":" + Padded(t.minute, 2) + ":" + Padded(t.second, 2)
      + "+00:00"
  }

  /** The ISO rendering reads back: each numeric field holds the component it was made from. */
  lemma IsoFormatFields(t: DateTime)
    requires IsValidDateTime(t)
    ensures var s := IsoFormat(t);
      && DigitsValue(s[..4]) == t.date.year && DigitsValue(s[5..7]) == t.date.month
      && DigitsValue(s[8..10]) == t.date.day && DigitsValue(s[11..13]) == t.hour
      && DigitsValue(s[14..16]) == t.minute && DigitsValue(s[17..19]) == t.second
  {
    var s := IsoFormat(t);
    var date := DateIso(t.date);
    var clock := Padded(t.hour, 2) + ":" + Padded(t.minute, 2) + ":" + Padded(t.second, 2);
    assert s == date + "T" + clock + "+00:00";
    assert s[..10] == date && s[11..19] == clock;
    assert date[..4] == Padded(t.date.year, 4) && date[5..7] == Padded(t.date.month, 2)
      && date[8..10] == Padded(t.date.day, 2);
    assert clock[..2] == Padded(t.hour, 2) && clock[3..5] == Padded(t.minute, 2)
      && clock[6..8] == Padded(t.second, 2);
    assert s[..4] == date[..4] && s[5..7] == date[5..7] && s[8..10] == date[8..10];
    assert s[11..13] == clock[..2] && s[14..16] == clock[3..5] && s[17..19] == clock[6..8];
    assert Pow10(2) == 100 && Pow10(4) == 10000;
    PaddedRoundTrip(t.date.year, 4);
    PaddedRoundTrip(t.date.month, 2);
    PaddedRoundTrip(t.date.day, 2);
    PaddedRoundTrip(t.hour, 2);
    PaddedRoundTrip(t.minute, 2);
    PaddedRoundTrip(t.second, 2);
  }

  /** `t.strftime('%Y-%m')` on Linux: the C library prints `%Y` without zero padding. */
  function MonthKey(d: Date): (s: string)
    ensures |s| >= 4 && s[|s| - 3] == '-'
    ensures forall i :: 0 <= i < |s| && i != |s| - 3 ==> IsDigit(s[i])
  {
    NatToString(d.year) + "-" + Padded(d.month, 2)
  }

  /** For every year from 1000 on, the month key is the first seven characters of the ISO
      rendering of any instant in that month. */
  lemma MonthKeyIsIsoPrefix(t: DateTime)
    requires IsValidDateTime(t) && t.date.year >= 1000
    ensures MonthKey(t.date) == IsoFormat(t)[..7]
  {
    assert Pow10(3) == 1000 && Pow10(4) == 10000;
    PaddedIsPlain(t.date.year, 4);
    var head := Padded(t.date.year, 4) + "-" + Padded(t.date.month, 2);
    var s := IsoFormat(t);
    assert |head| == 7;
    assert s == head + ("-" + Padded(t.date.day, 2) + "T"
      + Padded(t.hour, 2) + ":" + Padded(t.minute, 2) + ":" + Padded(t.second, 2) + "+00:00");
  }

  /** The month key names the year and the month it was made from. */
  lemma MonthKeyDetermines(d: Date, e: Date)
    requires IsValidDate(d) && IsValidDate(e)
    requires MonthKey(d) == MonthKey(e)
    ensures d.year == e.year && d.month == e.month
  {
    var a, b := MonthKey(d), MonthKey(e);
    var ya, yb := NatToString(d.year), NatToString(e.year);
    assert a[..|ya|] == ya && a[|ya|] == '-';
    assert b[..|yb|] == yb && b[|yb|] == '-';
    assert ya == yb;
    NatToStringRoundTrip(d.year);
    NatToStringRoundTrip(e.year);
    assert a[|ya| + 1..] == Padded(d.month, 2);
    assert b[|yb| + 1..] == Padded(e.month, 2);
    assert Pow10(2) == 100;
    PaddedRoundTrip(d.month, 2);
    PaddedRoundTrip(e.month, 2);
  }
}
