/**
 * `Rotation` of tracing-appender/src/rolling.rs: rounding a time down to the start of its period
 * and the time of the next rollover.
 */
module Rotations {
  import opened Options
  import opened Calendar

  datatype Rotation = Minutely | Hourly | Daily | Weekly | Never

  /** `round_date`, for every rotation that can round. */
  function RoundDate(r: Rotation, t: Time): Time
    requires !r.Never?
  {
    match r
    case Minutely => AtHms(t.day, t.Hour(), t.Minute(), 0)
    case Hourly => AtHms(t.day, t.Hour(), 0, 0)
    case Daily => AtHms(t.day, 0, 0, 0)
    case Weekly => AtHms(t.day - t.DaysFromSunday(), 0, 0, 0)
  }

  function Period(r: Rotation): int
    requires !r.Never?
  {
    match r
    case Minutely => MINUTE
    case Hourly => HOUR
    case Daily => DAY
    case Weekly => WEEK
  }

  /** `next_date`: one period later, rounded. */
  function NextDate(r: Rotation, t: Time): Option<Time> {
    if r.Never? then None
    else Some(RoundDate(r, FromTimestamp(t.Timestamp() + Period(r))))
  }

  /** The raw value kept in `next_date`; zero means that there is no rollover. */
  function NextRaw(r: Rotation, now: Time): int {
    var n := NextDate(r, now);
    if n.Some? then n.value.Timestamp() else 0
  }

  /** The moments at which a period starts: every full minute, hour or day, or every Sunday at midnight. */
  predicate StartsPeriod(r: Rotation, t: Time)
    requires !r.Never?
  {
    match r
    case Minutely => t.second % MINUTE == 0
    case Hourly => t.second % HOUR == 0
    case Daily => t.second == 0
    case Weekly => t.second == 0 && t.DaysFromSunday() == 0
  }

  /** Period starts are exactly the multiples of the period, counted from a Sunday for weeks. */
  lemma PeriodStartsAreMultiples(r: Rotation, t: Time)
    requires !r.Never? && t.Valid()
    ensures StartsPeriod(r, t) <==> (t.Timestamp() + 4 * DAY) % Period(r) == 0
  {
    match r
    case Minutely => FullMinutes(t.day, t.second);
    case Hourly => FullHours(t.day, t.second);
    case Daily =>
    case Weekly =>
  }

  lemma FullMinutes(d: int, s: int)
    ensures (d * DAY + s + 4 * DAY) % MINUTE == s % MINUTE
  {
    assert d * DAY + s + 4 * DAY == (d + 4) * 1440 * 60 + s;
  }

  lemma FullHours(d: int, s: int)
    ensures (d * DAY + s + 4 * DAY) % HOUR == s % HOUR
  {
    assert d * DAY + s + 4 * DAY == (d + 4) * 24 * 3600 + s;
  }

  /** `round_date` is the latest period start that is not later than the given time. */
  lemma RoundIsFloor(r: Rotation, t: Time)
    requires !r.Never? && t.Valid()
    ensures
      var f := RoundDate(r, t);
      f.Valid() && StartsPeriod(r, f) && f.Timestamp() <= t.Timestamp() < f.Timestamp() + Period(r)
  {
  }

  /** Two multiples of the period less than a period apart are equal, and the next one is a period later. */
  lemma Multiples(r: Rotation, a: int, b: int)
    requires !r.Never? && a % Period(r) == 0
    ensures b % Period(r) == 0 && a <= b < a + Period(r) ==> a == b
    ensures (a + Period(r)) % Period(r) == 0
  {
    MultiplesOf(Period(r), a, b);
  }

  lemma MultiplesOf(p: int, a: int, b: int)
    requires p > 0 && a % p == 0
    ensures b % p == 0 && a <= b < a + p ==> a == b
    ensures (a + p) % p == 0
  {
    assert a == p * (a / p) && b == p * (b / p) + b % p;
    var k := b / p - a / p;
    if b % p == 0 && a <= b < a + p {
      assert b - a == p * k;
      AtLeastOnce(p, k);
    }
    assert a + p == p * (a / p + 1);
    NoRemainder(p, a / p + 1);
  }

  lemma NoRemainder(p: int, q: int)
    requires p > 0
    ensures (p * q) % p == 0
  {
    var k := q - (p * q) / p;
    assert p * k == (p * q) % p;
    AtLeastOnce(p, k);
    AtLeastOnce(p, -k);
  }

  lemma AtLeastOnce(p: int, k: int)
    requires p > 0
    ensures k >= 1 ==> p * k >= p
  {
  }

  /** Only one period start fits: being it is being the rounded time. */
  lemma RoundIsUnique(r: Rotation, t: Time, f: Time)
    requires !r.Never? && t.Valid() && f.Valid() && StartsPeriod(r, f)
    requires f.Timestamp() <= t.Timestamp() < f.Timestamp() + Period(r)
    ensures f == RoundDate(r, t)
  {
    var g := RoundDate(r, t);
    RoundIsFloor(r, t);
    PeriodStartsAreMultiples(r, f);
    PeriodStartsAreMultiples(r, g);
    var x, y := f.Timestamp() + 4 * DAY, g.Timestamp() + 4 * DAY;
    if x <= y { Multiples(r, x, y); } else { Multiples(r, y, x); }
    TimestampInjective(f, g);
  }

  /** The next rollover is exactly one period after the current period's start, and in the future. */
  lemma NextIsOnePeriodLater(r: Rotation, t: Time)
    requires !r.Never? && t.Valid()
    ensures
      var n := NextDate(r, t).value;
      && n.Valid() && n.Timestamp() == RoundDate(r, t).Timestamp() + Period(r)
      && t.Timestamp() < n.Timestamp() <= t.Timestamp() + Period(r)
  {
    RoundIsFloor(r, t);
    var f := RoundDate(r, t);
    var later := FromTimestamp(t.Timestamp() + Period(r));
    var g := FromTimestamp(f.Timestamp() + Period(r));
    PeriodStartsAreMultiples(r, f);
    PeriodStartsAreMultiples(r, g);
    Multiples(r, f.Timestamp() + 4 * DAY, 0);
    RoundIsUnique(r, later, g);
  }

  /** Rounding keeps order, and rounding twice changes nothing. */
  lemma RoundIsMonotone(r: Rotation, t: Time, u: Time)
    requires !r.Never? && t.Valid() && u.Valid() && t.Timestamp() <= u.Timestamp()
    ensures RoundDate(r, t).Timestamp() <= RoundDate(r, u).Timestamp()
    ensures u.Timestamp() < NextDate(r, t).value.Timestamp() <==> RoundDate(r, u) == RoundDate(r, t)
    ensures RoundDate(r, RoundDate(r, t)) == RoundDate(r, t)
  {
    RoundIsFloor(r, t);
    RoundIsFloor(r, u);
    NextIsOnePeriodLater(r, t);
    var f := RoundDate(r, t);
    RoundIsUnique(r, f, f);
    if u.Timestamp() < f.Timestamp() + Period(r) {
      RoundIsUnique(r, u, f);
    } else {
      var g := RoundDate(r, u);
      if g.Timestamp() < f.Timestamp() {
        assert false;
      }
    }
  }
}
