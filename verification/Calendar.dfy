/**
 * The proleptic Gregorian calendar and UTC times of day, as far as the rolling appender uses
 * them through the `time` crate. Days are numbered from 1 January of year 0.
 */
module Calendar {

  datatype Date = Date(year: int, month: int, day: int)

  predicate Leap(y: int) {
    y % 4 == 0 && (y % 100 != 0 || y % 400 == 0)
  }

  function DaysInMonth(y: int, m: int): int {
    if m == 2 then (if Leap(y) then 29 else 28)
    else if m == 4 || m == 6 || m == 9 || m == 11 then 30
    else 31
  }

  predicate ValidDate(d: Date) {
    1 <= d.month <= 12 && 1 <= d.day <= DaysInMonth(d.year, d.month)
  }

  /** Days from the start of year 0 to the start of year `y`. */
  function DaysBeforeYear(y: int): int {
    365 * y + (y + 3) / 4 - (y + 99) / 100 + (y + 399) / 400
  }

  function DaysBeforeMonth(y: int, m: int): (n: int)
    requires 1 <= m <= 13
    decreases m
  {
    if m == 1 then 0 else DaysBeforeMonth(y, m - 1) + DaysInMonth(y, m - 1)
  }

  function DayNumber(d: Date): int
    requires ValidDate(d)
  {
    DaysBeforeYear(d.year) + DaysBeforeMonth(d.year, d.month) + d.day - 1
  }

  lemma YearLength(y: int)
    ensures DaysBeforeYear(y + 1) == DaysBeforeYear(y) + if Leap(y) then 366 else 365
  {
    FourYears(y);
    Centuries(y);
    FourCenturies(y);
    LeapRule(y);
  }

  lemma FourYears(y: int)
    ensures (y + 1 + 3) / 4 - (y + 3) / 4 == if y % 4 == 0 then 1 else 0
  {
  }

  lemma Centuries(y: int)
    ensures (y + 1 + 99) / 100 - (y + 99) / 100 == if y % 100 == 0 then 1 else 0
  {
  }

  lemma FourCenturies(y: int)
    ensures (y + 1 + 399) / 400 - (y + 399) / 400 == if y % 400 == 0 then 1 else 0
  {
  }

  lemma LeapRule(y: int)
    ensures y % 400 == 0 ==> y % 100 == 0
    ensures y % 100 == 0 ==> y % 4 == 0
  {
  }

  lemma MonthsFillYear(y: int)
    ensures DaysBeforeMonth(y, 13) == if Leap(y) then 366 else 365
  {
    assert DaysBeforeMonth(y, 4) == if Leap(y) then 91 else 90;
    assert DaysBeforeMonth(y, 7) == DaysBeforeMonth(y, 4) + 91;
    assert DaysBeforeMonth(y, 10) == DaysBeforeMonth(y, 7) + 92;
    assert DaysBeforeMonth(y, 13) == DaysBeforeMonth(y, 10) + 92;
  }

  lemma {:induction false} YearsGrow(y: int, z: int)
    requires y <= z
    ensures DaysBeforeYear(y) + 365 * (z - y) <= DaysBeforeYear(z)
    decreases z - y
  {
    if y < z {
      YearLength(y);
      YearsGrow(y + 1, z);
    }
  }

  lemma {:induction false} MonthsGrow(y: int, m: int, k: int)
    requires 1 <= m <= k <= 13
    ensures DaysBeforeMonth(y, m) <= DaysBeforeMonth(y, k)
    ensures m < k ==> DaysBeforeMonth(y, m) + DaysInMonth(y, m) <= DaysBeforeMonth(y, k)
    decreases k - m
  {
    if m < k {
      MonthsGrow(y, m + 1, k);
    }
  }

  // ----- From day numbers to dates -----

  /** The last year, at most `y`, that starts no later than day `n`. */
  function YearFrom(n: int, y: int): (r: int)
    requires n < DaysBeforeYear(y + 1)
    ensures DaysBeforeYear(r) <= n < DaysBeforeYear(r + 1)
    decreases DaysBeforeYear(y + 1) - n
  {
    YearLength(y);
    if DaysBeforeYear(y) <= n then y else YearFrom(n, y - 1)
  }

  function YearOf(n: int): (r: int)
    ensures DaysBeforeYear(r) <= n < DaysBeforeYear(r + 1)
  {
    if n < 0 then YearFrom(n, -1)
    else
      YearsGrow(0, n / 365 + 1);
      YearFrom(n, n / 365)
  }

  function MonthFrom(y: int, n: int, m: int): (r: int)
    requires 1 <= m <= 12 && 0 <= n < DaysBeforeMonth(y, m + 1)
    ensures 1 <= r <= 12 && DaysBeforeMonth(y, r) <= n < DaysBeforeMonth(y, r + 1)
    decreases m
  {
    if DaysBeforeMonth(y, m) <= n then m else MonthFrom(y, n, m - 1)
  }

  function FromDayNumber(n: int): (d: Date)
    ensures ValidDate(d)
  {
    var y := YearOf(n);
    YearLength(y);
    MonthsFillYear(y);
    var rest := n - DaysBeforeYear(y);
    var m := MonthFrom(y, rest, 12);
    Date(y, m, rest - DaysBeforeMonth(y, m) + 1)
  }

  /** Every day has exactly one date ... */
  lemma DayNumberOfDate(n: int)
    ensures DayNumber(FromDayNumber(n)) == n
  {
  }

  lemma YearUnique(n: int, y: int, z: int)
    requires DaysBeforeYear(y) <= n < DaysBeforeYear(y + 1)
    requires DaysBeforeYear(z) <= n < DaysBeforeYear(z + 1)
    ensures y == z
  {
    if y < z { YearsGrow(y + 1, z); }
    if z < y { YearsGrow(z + 1, y); }
  }

  lemma MonthUnique(y: int, n: int, m: int, k: int)
    requires 1 <= m <= 12 && 1 <= k <= 12
    requires DaysBeforeMonth(y, m) <= n < DaysBeforeMonth(y, m + 1)
    requires DaysBeforeMonth(y, k) <= n < DaysBeforeMonth(y, k + 1)
    ensures m == k
  {
    if m < k { MonthsGrow(y, m + 1, k); }
    if k < m { MonthsGrow(y, k + 1, m); }
  }

  /** ... and every date is the date of its day. */
  lemma DateOfDayNumber(d: Date)
    requires ValidDate(d)
    ensures FromDayNumber(DayNumber(d)) == d
  {
    var n := DayNumber(d);
    MonthsGrow(d.year, 1, d.month);
    MonthsGrow(d.year, d.month, 13);
    MonthsFillYear(d.year);
    YearLength(d.year);
    YearUnique(n, YearOf(n), d.year);
    var e := FromDayNumber(n);
    MonthUnique(d.year, n - DaysBeforeYear(d.year), d.month, e.month);
  }

  // ----- Times -----

  /** Seconds of a day, minute, hour and week. */
  const MINUTE: int := 60
  const HOUR: int := 3600
  const DAY: int := 86400
  const WEEK: int := 604800

  /** The number of 1 January 1970. */
  const EPOCH_DAY: int := 719528

  /** A UTC time to the second: days since the Unix epoch, and the second of that day. */
  datatype Time = Time(day: int, second: int) {
    predicate Valid() {
      0 <= second < DAY
    }

    function Timestamp(): int {
      day * DAY + second
    }

    function Hour(): int {
      second / HOUR
    }

    function Minute(): int {
      second % HOUR / MINUTE
    }

    function DaysFromSunday(): int {
      (day + 4) % 7
    }

    function Date(): Date {
      FromDayNumber(day + EPOCH_DAY)
    }
  }

  /** `Time::from_hms` on the same day. */
  function AtHms(day: int, hour: int, minute: int, second: int): Time {
    Time(day, hour * HOUR + minute * MINUTE + second)
  }

  function FromTimestamp(t: int): (r: Time)
    ensures r.Valid() && r.Timestamp() == t
  {
    Time(t / DAY, t % DAY)
  }

  lemma TimestampInjective(a: Time, b: Time)
    requires a.Valid() && b.Valid() && a.Timestamp() == b.Timestamp()
    ensures a == b
  {
  }

  /** The numbering agrees with the calendar: day 0 is 1 January 1970, a Thursday. */
  lemma EpochIsAThursday(d: Date, t: Time)
    requires d.year == 1970 && d.month == 1 && d.day == 1
    requires t.day == 0
    ensures DayNumber(d) == EPOCH_DAY
    ensures t.Date() == d && t.DaysFromSunday() == 4
  {
    assert DaysBeforeMonth(d.year, 1) == 0;
    DateOfDayNumber(d);
  }
}
