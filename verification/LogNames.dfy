/**
 * The file names of the rolling appender (tracing-appender/src/rolling.rs): `date_format`,
 * `join_date`, `parse_date_from_filename` and the name filter of `prune_old_logs`.
 *
 * Formatting and parsing follow the `time` crate: zero-padded fields of fixed width, a year of
 * four digits with a sign when it is negative, and any sign accepted in front of it.
 */
module LogNames {
  import opened Options
  import opened Calendar
  import opened Rotations

  // ----- Digits -----

  predicate IsDigit(c: char) {
    '0' <= c <= '9'
  }

  function Digit(n: int): char
    requires 0 <= n < 10
  {
    '0' + n as char
  }

  /** The last `width` decimal digits of `n`. */
  function Pad(n: nat, width: nat): string {
    if width == 0 then "" else Pad(n / 10, width - 1) + [Digit(n % 10)]
  }

  function Value(digits: string): int {
    if digits == "" then 0 else 10 * Value(digits[..|digits| - 1]) + (digits[|digits| - 1] as int - '0' as int)
  }

  function Pow10(k: nat): nat {
    if k == 0 then 1 else 10 * Pow10(k - 1)
  }

  lemma {:induction false} PadRoundTrip(n: nat, width: nat)
    requires n < Pow10(width)
    ensures |Pad(n, width)| == width && Value(Pad(n, width)) == n
    ensures forall c <- Pad(n, width) :: IsDigit(c)
  {
    if width > 0 {
      PadRoundTrip(n / 10, width - 1);
      var p := Pad(n, width);
      assert p[..|p| - 1] == Pad(n / 10, width - 1);
      assert p[|p| - 1] as int - '0' as int == n % 10;
    }
  }

  // ----- Format descriptions -----

  datatype Item = Literal(c: char) | Year | Month | DayOfMonth | HourOfDay | MinuteOfHour

  const Ymd: seq<Item> := [Year, Literal('-'), Month, Literal('-'), DayOfMonth]

  /** `date_format` */
  function DateFormat(r: Rotation): seq<Item> {
    match r
    case Minutely => Ymd + [Literal('-'), HourOfDay, Literal('-'), MinuteOfHour]
    case Hourly => Ymd + [Literal('-'), HourOfDay]
    case _ => Ymd
  }

  /** The years that the `time` crate can represent. */
  predicate Representable(t: Time) {
    t.Valid() && -9999 <= t.Date().year <= 9999
  }

  function FormatItem(item: Item, t: Time): string
    requires t.Valid() && Representable(t)
  {
    var d := t.Date();
    match item
    case Literal(c) => [c]
    case Year => (if d.year < 0 then "-" else "") + Pad(if d.year < 0 then -d.year else d.year, 4)
    case Month => Pad(d.month, 2)
    case DayOfMonth => Pad(d.day, 2)
    case HourOfDay => Pad(t.Hour(), 2)
    case MinuteOfHour => Pad(t.Minute(), 2)
  }

  function Format(items: seq<Item>, t: Time): string
    requires Representable(t)
  {
    if items == [] then "" else FormatItem(items[0], t) + Format(items[1..], t)
  }

  /** The year as it appears in names. */
  function YearText(t: Time): string
    requires Representable(t)
  {
    FormatItem(Year, t)
  }

  lemma FormatCons(item: Item, items: seq<Item>, t: Time)
    requires Representable(t)
    ensures Format([item] + items, t) == FormatItem(item, t) + Format(items, t)
  {
    assert ([item] + items)[1..] == items;
  }

  /** Dates are written `YYYY-MM-DD`, the full-date form of section 5.6 of RFC 3339 ... */
  lemma DatesAreFullDates(t: Time)
    requires Representable(t)
    ensures Format(Ymd, t) == YearText(t) + "-" + Pad(t.Date().month, 2) + "-" + Pad(t.Date().day, 2)
  {
    var none: seq<Item> := [];
    var month: seq<Item> := [Month, Literal('-'), DayOfMonth];
    FormatCons(DayOfMonth, none, t);
    FormatCons(Literal('-'), [DayOfMonth], t);
    FormatCons(Month, [Literal('-'), DayOfMonth], t);
    FormatCons(Literal('-'), month, t);
    FormatCons(Year, [Literal('-')] + month, t);
    assert [DayOfMonth] == [DayOfMonth] + none && [Literal('-'), DayOfMonth] == [Literal('-')] + [DayOfMonth];
    assert month == [Month] + [Literal('-'), DayOfMonth];
    assert Ymd == [Year] + ([Literal('-')] + month);
    Dashes(YearText(t), Pad(t.Date().month, 2), Pad(t.Date().day, 2));
  }

  lemma Dashes(y: string, m: string, d: string)
    ensures y + ("-" + (m + ("-" + (d + "")))) == y + "-" + m + "-" + d
  {
    assert d + "" == d;
  }

  lemma {:induction false} FormatConcat(xs: seq<Item>, ys: seq<Item>, t: Time)
    requires Representable(t)
    ensures Format(xs + ys, t) == Format(xs, t) + Format(ys, t)
  {
    if xs == [] {
      assert xs + ys == ys;
    } else {
      assert (xs + ys)[1..] == xs[1..] + ys;
      FormatConcat(xs[1..], ys, t);
    }
  }

  /** ... followed by `-HH` and `-MM` where the rotation is that fine. */
  lemma NamesShowThePeriod(r: Rotation, t: Time)
    requires Representable(t)
    ensures Format(DateFormat(r), t) == Format(Ymd, t)
      + (if r.Minutely? || r.Hourly? then "-" + Pad(t.Hour(), 2) else "")
      + (if r.Minutely? then "-" + Pad(t.Minute(), 2) else "")
  {
    var none: seq<Item> := [];
    var h: seq<Item> := [Literal('-'), HourOfDay];
    var m: seq<Item> := [Literal('-'), MinuteOfHour];
    assert h == [Literal('-')] + [HourOfDay] && [HourOfDay] == [HourOfDay] + none;
    assert m == [Literal('-')] + [MinuteOfHour] && [MinuteOfHour] == [MinuteOfHour] + none;
    FormatCons(HourOfDay, none, t);
    FormatCons(Literal('-'), [HourOfDay], t);
    FormatCons(MinuteOfHour, none, t);
    FormatCons(Literal('-'), [MinuteOfHour], t);
    assert Pad(t.Hour(), 2) + "" == Pad(t.Hour(), 2) && Pad(t.Minute(), 2) + "" == Pad(t.Minute(), 2);
    FormatConcat(Ymd, h, t);
    FormatConcat(Ymd + h, m, t);
    assert DateFormat(Minutely) == Ymd + h + m;
    assert Format(Ymd, t) + "" + "" == Format(Ymd, t);
    assert Format(Ymd, t) + Format(h, t) + "" == Format(Ymd, t) + Format(h, t);
  }

  // ----- Parsing -----

  datatype Parsed = Parsed(year: Option<int>, month: Option<int>, day: Option<int>, hour: Option<int>, minute: Option<int>)

  const Nothing: Parsed := Parsed(None, None, None, None, None)

  predicate AllDigits(s: string) {
    forall c <- s :: IsDigit(c)
  }

  /** A number of exactly `width` digits within the given bounds, and the rest of the text. */
  function ParseNumber(s: string, width: nat, low: int, high: int): Option<(int, string)> {
    if |s| < width || !AllDigits(s[..width]) then None
    else
      var v := Value(s[..width]);
      if low <= v <= high then Some((v, s[width..])) else None
  }

  function ParseYear(s: string): Option<(int, string)> {
    if s != "" && s[0] == '-' then
      var n := ParseNumber(s[1..], 4, 0, 9999);
      if n.None? then None else Some((-n.value.0, n.value.1))
    else if s != "" && s[0] == '+' then ParseNumber(s[1..], 4, 0, 9999)
    else ParseNumber(s, 4, 0, 9999)
  }

  function ParseItem(item: Item, s: string, p: Parsed): Option<(Parsed, string)> {
    match item
    case Literal(c) => if s != "" && s[0] == c then Some((p, s[1..])) else None
    case Year =>
      var n := ParseYear(s);
      if n.None? then None else Some((p.(year := Some(n.value.0)), n.value.1))
    case Month =>
      var n := ParseNumber(s, 2, 1, 12);
      if n.None? then None else Some((p.(month := Some(n.value.0)), n.value.1))
    case DayOfMonth =>
      var n := ParseNumber(s, 2, 1, 31);
      if n.None? then None else Some((p.(day := Some(n.value.0)), n.value.1))
    case HourOfDay =>
      var n := ParseNumber(s, 2, 0, 23);
      if n.None? then None else Some((p.(hour := Some(n.value.0)), n.value.1))
    case MinuteOfHour =>
      var n := ParseNumber(s, 2, 0, 59);
      if n.None? then None else Some((p.(minute := Some(n.value.0)), n.value.1))
  }

  function ParseItems(items: seq<Item>, s: string, p: Parsed): Option<(Parsed, string)> {
    if items == [] then Some((p, s))
    else
      var r := ParseItem(items[0], s, p);
      if r.None? then None else ParseItems(items[1..], r.value.1, r.value.0)
  }

  /** The whole text must match. */
  function ParseAll(items: seq<Item>, s: string): Option<Parsed> {
    var r := ParseItems(items, s, Nothing);
    if r.None? || r.value.1 != "" then None else Some(r.value.0)
  }

  /** `Date::parse`, as days since the Unix epoch. */
  function ParseDate(items: seq<Item>, s: string): Option<int> {
    var p := ParseAll(items, s);
    if p.None? || p.value.year.None? || p.value.month.None? || p.value.day.None? then None
    else
      var d := Date(p.value.year.value, p.value.month.value, p.value.day.value);
      if ValidDate(d) then Some(DayNumber(d) - EPOCH_DAY) else None
  }

  /** `PrimitiveDateTime::parse`, which needs at least an hour. */
  function ParseDateTime(items: seq<Item>, s: string): Option<Time> {
    var day := ParseDate(items, s);
    if day.None? || ParseAll(items, s).value.hour.None? then None
    else
      var p := ParseAll(items, s).value;
      Some(AtHms(day.value, p.hour.value, p.minute.UnwrapOr(0), 0))
  }

  /** A date and time, or else a date at midnight. */
  function ParseTime(items: seq<Item>, s: string): Option<Time> {
    var t := ParseDateTime(items, s);
    if t.Some? then t
    else
      var d := ParseDate(items, s);
      if d.None? then None else Some(Time(d.value, 0))
  }

  // ----- Only formatted dates can be parsed -----

  lemma {:induction false} DigitsRoundTrip(digits: string)
    requires AllDigits(digits)
    ensures 0 <= Value(digits) < Pow10(|digits|) && Pad(Value(digits), |digits|) == digits
  {
    if digits != "" {
      var init, c := digits[..|digits| - 1], digits[|digits| - 1];
      assert digits == init + [c];
      DigitsRoundTrip(init);
      assert IsDigit(c);
      LastDigit(Value(init), c as int - '0' as int);
    }
  }

  lemma LastDigit(n: nat, d: nat)
    requires d < 10
    ensures (10 * n + d) / 10 == n && (10 * n + d) % 10 == d
  {
  }

  lemma ParsedNumber(s: string, width: nat, low: int, high: int)
    requires ParseNumber(s, width, low, high).Some? && low >= 0
    ensures
      var (n, rest) := ParseNumber(s, width, low, high).value;
      0 <= low <= n <= high && s == Pad(n, width) + rest
  {
    DigitsRoundTrip(s[..width]);
  }

  /** The component that an item reads. */
  function Component(item: Item, p: Parsed): Option<int> {
    match item
    case Literal(_) => None
    case Year => p.year
    case Month => p.month
    case DayOfMonth => p.day
    case HourOfDay => p.hour
    case MinuteOfHour => p.minute
  }

  /** A component that fits its item. */
  predicate Fits(item: Item, p: Parsed) {
    match item
    case Literal(_) => true
    case Year => p.year.Some? && 0 <= p.year.value <= 9999
    case HourOfDay => p.hour.Some? && 0 <= p.hour.value < 24
    case MinuteOfHour => p.minute.Some? && 0 <= p.minute.value < 60
    case _ => Component(item, p).Some? && 0 <= Component(item, p).value < 100
  }

  function ItemText(item: Item, p: Parsed): string
    requires Fits(item, p)
  {
    match item
    case Literal(c) => [c]
    case Year => Pad(p.year.value, 4)
    case _ => Pad(Component(item, p).value, 2)
  }

  predicate Unsigned(s: string) {
    s == "" || (s[0] != '+' && s[0] != '-')
  }

  lemma ParsedItem(item: Item, s: string, p: Parsed)
    requires ParseItem(item, s, p).Some? && (item.Year? ==> Unsigned(s))
    ensures
      var (q, rest) := ParseItem(item, s, p).value;
      Fits(item, q) && s == ItemText(item, q) + rest
  {
    match item
    case Literal(c) => assert s == [s[0]] + s[1..];
    case Year => ParsedNumber(s, 4, 0, 9999);
    case Month => ParsedNumber(s, 2, 1, 12);
    case DayOfMonth => ParsedNumber(s, 2, 1, 31);
    case HourOfDay => ParsedNumber(s, 2, 0, 23);
    case MinuteOfHour => ParsedNumber(s, 2, 0, 59);
  }

  lemma {:induction false} OthersKept(items: seq<Item>, s: string, p: Parsed, item: Item)
    requires ParseItems(items, s, p).Some? && item !in items
    ensures Component(item, ParseItems(items, s, p).value.0) == Component(item, p)
  {
    if items != [] {
      var (q, rest) := ParseItem(items[0], s, p).value;
      OthersKept(items[1..], rest, q, item);
    }
  }

  /** No component is read twice, and the year only first. */
  predicate Once(items: seq<Item>) {
    items == [] || ((items[0].Literal? || items[0] !in items[1..]) && Year !in items[1..] && Once(items[1..]))
  }

  function TextOf(items: seq<Item>, p: Parsed): string
    requires forall k :: 0 <= k < |items| ==> Fits(items[k], p)
  {
    if items == [] then "" else ItemText(items[0], p) + TextOf(items[1..], p)
  }

  lemma {:induction false} ParsedText(items: seq<Item>, s: string, p: Parsed)
    requires ParseItems(items, s, p).Some? && Once(items) && (Year in items ==> Unsigned(s))
    ensures
      var (q, rest) := ParseItems(items, s, p).value;
      && (forall k :: 0 <= k < |items| ==> Fits(items[k], q))
      && s == TextOf(items, q) + rest
  {
    if items != [] {
      var (p1, s1) := ParseItem(items[0], s, p).value;
      var (q, rest) := ParseItems(items, s, p).value;
      ParsedItem(items[0], s, p);
      ParsedText(items[1..], s1, p1);
      if !items[0].Literal? {
        OthersKept(items[1..], s1, p1, items[0]);
      }
      SameText(items[0], p1, q);
      assert forall k :: 0 < k < |items| ==> items[k] == items[1..][k - 1];
      assert ItemText(items[0], q) + (TextOf(items[1..], q) + rest) == ItemText(items[0], q) + TextOf(items[1..], q) + rest;
    }
  }

  lemma SameText(item: Item, p: Parsed, q: Parsed)
    requires Fits(item, p) && (item.Literal? || Component(item, q) == Component(item, p))
    ensures Fits(item, q) && ItemText(item, q) == ItemText(item, p)
  {
  }

  /** The moment that a parsed date shows. */
  function Shown(p: Parsed): Time
    requires p.year.Some? && p.month.Some? && p.day.Some? && ValidDate(Date(p.year.value, p.month.value, p.day.value))
  {
    Time(DayNumber(Date(p.year.value, p.month.value, p.day.value)) - EPOCH_DAY,
         3600 * p.hour.UnwrapOr(0) + 60 * p.minute.UnwrapOr(0))
  }

  predicate OnTheClock(p: Parsed) {
    && (p.hour.Some? ==> 0 <= p.hour.value < 24)
    && (p.minute.Some? ==> 0 <= p.minute.value < 60)
  }

  lemma ShownTime(p: Parsed)
    requires p.year.Some? && p.month.Some? && p.day.Some? && ValidDate(Date(p.year.value, p.month.value, p.day.value))
    requires OnTheClock(p) && 0 <= p.year.value <= 9999
    ensures
      var t := Shown(p);
      && t.Valid() && Representable(t) && t.Date() == Date(p.year.value, p.month.value, p.day.value)
      && t.Hour() == p.hour.UnwrapOr(0) && t.Minute() == p.minute.UnwrapOr(0)
  {
    DateOfDayNumber(Date(p.year.value, p.month.value, p.day.value));
    var h, m := p.hour.UnwrapOr(0), p.minute.UnwrapOr(0);
    assert (3600 * h + 60 * m) / 3600 == h && (3600 * h + 60 * m) % 3600 == 60 * m && 60 * m / 60 == m;
  }

  lemma {:induction false} FormattedText(items: seq<Item>, p: Parsed, t: Time)
    requires Representable(t) && 0 <= t.Date().year && forall k :: 0 <= k < |items| ==> Fits(items[k], p)
    requires p.year == Some(t.Date().year) && p.month == Some(t.Date().month) && p.day == Some(t.Date().day)
    requires (p.hour.Some? ==> p.hour.value == t.Hour()) && (p.minute.Some? ==> p.minute.value == t.Minute())
    ensures Format(items, t) == TextOf(items, p)
  {
    if items != [] {
      FormattedText(items[1..], p, t);
      assert "" + Pad(t.Date().year, 4) == Pad(t.Date().year, 4);
    }
  }

  lemma FormatsReadOnce(r: Rotation)
    ensures Once(DateFormat(r)) && DateFormat(r)[0] == Year
  {
    match r
    case Minutely =>
      var all := [Year, Literal('-'), Month, Literal('-'), DayOfMonth, Literal('-'), HourOfDay, Literal('-'), MinuteOfHour];
      assert DateFormat(r) == all;
      OnceSteps(all);
    case Hourly =>
      var all := [Year, Literal('-'), Month, Literal('-'), DayOfMonth, Literal('-'), HourOfDay];
      assert DateFormat(r) == all;
      OnceSteps(all);
    case _ => OnceSteps(Ymd);
  }

  /** Reading once, by positions. */
  ghost predicate Apart(items: seq<Item>, i: nat, j: nat)
    requires i < |items| && j < |items|
  {
    items[j] != Year && (items[i].Literal? || items[i] != items[j])
  }

  lemma {:induction false} OnceSteps(items: seq<Item>)
    requires forall i, j :: 0 <= i < j < |items| ==> Apart(items, i, j)
    ensures Once(items)
  {
    if items != [] {
      var rest := items[1..];
      forall i, j | 0 <= i < j < |rest| ensures Apart(rest, i, j) {
        assert Apart(items, i + 1, j + 1);
      }
      forall j | 0 <= j < |rest| ensures rest[j] != Year && (items[0].Literal? || items[0] != rest[j]) {
        assert Apart(items, 0, j + 1);
      }
      OnceSteps(rest);
    }
  }

  /** What a name must look like, signs of years apart, for its date to be parsed: exactly the text of some time. */
  lemma ParsedDateIsFormatted(r: Rotation, s: string)
    requires Unsigned(s) && ParseDate(DateFormat(r), s).Some?
    ensures
      var t := Shown(ParseAll(DateFormat(r), s).value);
      t.Valid() && Representable(t) && s == Format(DateFormat(r), t) && t.day == ParseDate(DateFormat(r), s).value
  {
    var items := DateFormat(r);
    var q := ParseAll(items, s).value;
    FormatsReadOnce(r);
    ParsedText(items, s, Nothing);
    ClockIsRead(items, s);
    assert Fits(items[0], q);
    ShownTime(q);
    FormattedText(items, q, Shown(q));
    assert TextOf(items, q) + "" == TextOf(items, q);
  }

  lemma ClockIsRead(items: seq<Item>, s: string)
    requires ParseItems(items, s, Nothing).Some?
    requires var q := ParseItems(items, s, Nothing).value.0; forall k :: 0 <= k < |items| ==> Fits(items[k], q)
    ensures OnTheClock(ParseItems(items, s, Nothing).value.0)
  {
    if HourOfDay !in items { OthersKept(items, s, Nothing, HourOfDay); }
    if MinuteOfHour !in items { OthersKept(items, s, Nothing, MinuteOfHour); }
  }

  // ----- Parsing inverts formatting -----

  /** What parsing the formatted item adds to what is known. */
  function Known(item: Item, t: Time, p: Parsed): Parsed {
    var d := t.Date();
    match item
    case Literal(_) => p
    case Year => p.(year := Some(d.year))
    case Month => p.(month := Some(d.month))
    case DayOfMonth => p.(day := Some(d.day))
    case HourOfDay => p.(hour := Some(t.Hour()))
    case MinuteOfHour => p.(minute := Some(t.Minute()))
  }

  function AllKnown(items: seq<Item>, t: Time, p: Parsed): Parsed {
    if items == [] then p else AllKnown(items[1..], t, Known(items[0], t, p))
  }

  lemma NumberRoundTrip(n: nat, width: nat, low: int, high: int, rest: string)
    requires n < Pow10(width) && low <= n <= high
    ensures ParseNumber(Pad(n, width) + rest, width, low, high) == Some((n, rest))
  {
    PadRoundTrip(n, width);
    var s := Pad(n, width) + rest;
    assert s[..width] == Pad(n, width) && s[width..] == rest;
  }

  lemma YearRoundTrip(y: int, rest: string)
    requires -9999 <= y <= 9999
    ensures ParseYear((if y < 0 then "-" else "") + Pad(if y < 0 then -y else y, 4) + rest) == Some((y, rest))
  {
    var n := if y < 0 then -y else y;
    assert Pow10(4) == 10000;
    NumberRoundTrip(n, 4, 0, 9999, rest);
    PadRoundTrip(n, 4);
    if y < 0 {
      assert ("-" + Pad(n, 4) + rest)[1..] == Pad(n, 4) + rest;
    } else {
      var s := Pad(n, 4);
      assert s[0] in s && IsDigit(s[0]);
      assert (if y < 0 then "-" else "") + s + rest == s + rest;
      assert (s + rest)[0] == s[0];
    }
  }

  lemma ItemRoundTrip(item: Item, t: Time, p: Parsed, rest: string)
    requires Representable(t)
    ensures ParseItem(item, FormatItem(item, t) + rest, p) == Some((Known(item, t, p), rest))
  {
    var d := t.Date();
    assert Pow10(2) == 100;
    match item
    case Literal(c) => assert ([c] + rest)[1..] == rest;
    case Year => YearRoundTrip(d.year, rest);
    case Month => NumberRoundTrip(d.month, 2, 1, 12, rest);
    case DayOfMonth => NumberRoundTrip(d.day, 2, 1, 31, rest);
    case HourOfDay => NumberRoundTrip(t.Hour(), 2, 0, 23, rest);
    case MinuteOfHour => NumberRoundTrip(t.Minute(), 2, 0, 59, rest);
  }

  /** For any format description. */
  lemma {:induction false} FormatRoundTrip(items: seq<Item>, t: Time, p: Parsed, rest: string)
    requires Representable(t)
    ensures ParseItems(items, Format(items, t) + rest, p) == Some((AllKnown(items, t, p), rest))
  {
    if items == [] {
      assert Format(items, t) + rest == rest;
    } else {
      var tail := Format(items[1..], t);
      assert Format(items, t) + rest == FormatItem(items[0], t) + (tail + rest);
      ItemRoundTrip(items[0], t, p, tail + rest);
      FormatRoundTrip(items[1..], t, Known(items[0], t, p), rest);
    }
  }

  lemma {:induction false} AllKnownConcat(xs: seq<Item>, ys: seq<Item>, t: Time, p: Parsed)
    ensures AllKnown(xs + ys, t, p) == AllKnown(ys, t, AllKnown(xs, t, p))
  {
    if xs == [] {
      assert xs + ys == ys;
    } else {
      assert (xs + ys)[1..] == xs[1..] + ys;
      AllKnownConcat(xs[1..], ys, t, Known(xs[0], t, p));
    }
  }

  lemma AllKnownCons(x: Item, xs: seq<Item>, t: Time, p: Parsed)
    ensures AllKnown([x] + xs, t, p) == AllKnown(xs, t, Known(x, t, p))
  {
    assert ([x] + xs)[1..] == xs;
  }

  /** A dash and a field. */
  lemma DashedKnown(item: Item, xs: seq<Item>, t: Time, p: Parsed)
    ensures AllKnown([Literal('-'), item] + xs, t, p) == AllKnown(xs, t, Known(item, t, p))
  {
    AllKnownCons(Literal('-'), [item] + xs, t, p);
    AllKnownCons(item, xs, t, p);
    assert [Literal('-'), item] + xs == [Literal('-')] + ([item] + xs);
  }

  lemma YmdKnown(t: Time, d: Date)
    requires d == t.Date()
    ensures AllKnown(Ymd, t, Nothing) == Parsed(Some(d.year), Some(d.month), Some(d.day), None, None)
  {
    var dm: seq<Item> := [Literal('-'), DayOfMonth];
    var mdm: seq<Item> := [Literal('-'), Month] + dm;
    assert Ymd == [Year] + mdm;
    AllKnownCons(Year, mdm, t, Nothing);
    var p1 := Known(Year, t, Nothing);
    DashedKnown(Month, dm, t, p1);
    assert dm == dm + [];
    DashedKnown(DayOfMonth, [], t, Known(Month, t, p1));
  }

  lemma FormatKnows(r: Rotation, t: Time, d: Date)
    requires d == t.Date()
    ensures
      var k := AllKnown(DateFormat(r), t, Nothing);
      && k.year == Some(d.year) && k.month == Some(d.month) && k.day == Some(d.day)
      && k.hour == (if r.Minutely? || r.Hourly? then Some(t.Hour()) else None)
      && k.minute == (if r.Minutely? then Some(t.Minute()) else None)
  {
    YmdKnown(t, d);
    var ymd := AllKnown(Ymd, t, Nothing);
    var h: seq<Item> := [Literal('-'), HourOfDay];
    var m: seq<Item> := [Literal('-'), MinuteOfHour];
    if r.Minutely? {
      assert [Literal('-'), HourOfDay, Literal('-'), MinuteOfHour] == h + m;
      AllKnownConcat(Ymd, h + m, t, Nothing);
      DashedKnown(HourOfDay, m, t, ymd);
      assert m == m + [];
      DashedKnown(MinuteOfHour, [], t, Known(HourOfDay, t, ymd));
    } else if r.Hourly? {
      AllKnownConcat(Ymd, h, t, Nothing);
      assert h == h + [];
      DashedKnown(HourOfDay, [], t, ymd);
    }
  }

  /** The text of a rounded time gives that time back. */
  lemma RoundedRoundTrip(r: Rotation, t: Time)
    requires !r.Never? && t.Valid() && Representable(RoundDate(r, t))
    ensures
      var f := RoundDate(r, t);
      && ParseTime(DateFormat(r), Format(DateFormat(r), f)) == Some(f)
      && ParseDate(DateFormat(r), Format(DateFormat(r), f)) == Some(f.day)
  {
    var f := RoundDate(r, t);
    var text := Format(DateFormat(r), f);
    FormatRoundTrip(DateFormat(r), f, Nothing, "");
    assert text + "" == text;
    FormatKnows(r, f, f.Date());
    RoundIsFloor(r, t);
    KnownIsEnough(r, DateFormat(r), text, AllKnown(DateFormat(r), f, Nothing), f);
  }

  /** Date and time of a period start follow from what the format of its rotation shows. */
  lemma KnownIsEnough(r: Rotation, items: seq<Item>, text: string, k: Parsed, f: Time)
    requires !r.Never? && f.Valid() && StartsPeriod(r, f) && ParseAll(items, text) == Some(k)
    requires k.year == Some(f.Date().year) && k.month == Some(f.Date().month) && k.day == Some(f.Date().day)
    requires k.hour == (if r.Minutely? || r.Hourly? then Some(f.Hour()) else None)
    requires k.minute == (if r.Minutely? then Some(f.Minute()) else None)
    ensures ParseTime(items, text) == Some(f) && ParseDate(items, text) == Some(f.day)
  {
    DayIsEnough(items, text, k, f);
    HourAndMinute(r, f);
  }

  lemma DayIsEnough(items: seq<Item>, text: string, k: Parsed, f: Time)
    requires f.Valid() && ParseAll(items, text) == Some(k)
    requires k.year == Some(f.Date().year) && k.month == Some(f.Date().month) && k.day == Some(f.Date().day)
    ensures ParseDate(items, text) == Some(f.day)
  {
    DayNumberOfDate(f.day + EPOCH_DAY);
  }

  lemma HourAndMinute(r: Rotation, f: Time)
    requires !r.Never? && f.Valid() && StartsPeriod(r, f)
    ensures f == AtHms(f.day, if r.Minutely? || r.Hourly? then f.Hour() else 0, if r.Minutely? then f.Minute() else 0, 0)
  {
  }

  // ----- File names -----

  datatype Config = Config(rotation: Rotation, prefix: Option<string>, suffix: Option<string>)

  /** The time whose text goes into the name. */
  function Stamp(c: Config, t: Time): Time {
    if c.rotation.Never? then t else RoundDate(c.rotation, t)
  }

  /** `join_date` */
  function JoinDate(c: Config, t: Time): string
    requires Representable(Stamp(c, t))
  {
    var date := Format(DateFormat(c.rotation), Stamp(c, t));
    match (c.rotation, c.prefix, c.suffix)
    case (Never, Some(name), None) => name
    case (Never, Some(name), Some(suffix)) => name + "." + suffix
    case (Never, None, Some(suffix)) => suffix
    case (_, Some(name), Some(suffix)) => name + "." + date + "." + suffix
    case (_, Some(name), None) => name + "." + date
    case (_, None, Some(suffix)) => date + "." + suffix
    case (_, None, None) => date
  }

  function StripPrefix(s: string, prefix: string): Option<string> {
    if prefix <= s then Some(s[|prefix|..]) else None
  }

  predicate EndsWith(s: string, suffix: string) {
    |suffix| <= |s| && s[|s| - |suffix|..] == suffix
  }

  function StripSuffix(s: string, suffix: string): Option<string> {
    if EndsWith(s, suffix) then Some(s[..|s| - |suffix|]) else None
  }

  function StripBefore(s: string, prefix: Option<string>): Option<string> {
    if prefix.None? then Some(s)
    else
      var rest := StripPrefix(s, prefix.value);
      if rest.None? then None else StripPrefix(rest.value, ".")
  }

  function StripAfter(s: string, suffix: Option<string>): Option<string> {
    if suffix.None? then Some(s)
    else
      var rest := StripSuffix(s, suffix.value);
      if rest.None? then None else StripSuffix(rest.value, ".")
  }

  /** `parse_date_from_filename` */
  function ParseDateFromFilename(name: string, items: seq<Item>, prefix: Option<string>, suffix: Option<string>): Option<Time> {
    var rest := StripBefore(name, prefix);
    if rest.None? then None
    else
      var text := StripAfter(rest.value, suffix);
      if text.None? then None else ParseTime(items, text.value)
  }

  lemma StripBeforeRest(prefix: string, rest: string)
    ensures StripBefore(prefix + "." + rest, Some(prefix)) == Some(rest)
  {
    var name := prefix + "." + rest;
    assert name[..|prefix|] == prefix && name[|prefix|..] == "." + rest;
    assert ("." + rest)[1..] == rest;
  }

  lemma StripAfterDate(date: string, suffix: string)
    ensures StripAfter(date + ("." + suffix), Some(suffix)) == Some(date)
  {
    var all := date + ("." + suffix);
    var n := |all| - |suffix|;
    assert all[n..] == suffix && all[..n] == date + ".";
    assert (date + ".")[|date|..] == "." && (date + ".")[..|date|] == date;
  }

  lemma StripBoth(date: string, prefix: Option<string>, suffix: Option<string>)
    ensures
      var tail := if suffix.Some? then "." + suffix.value else "";
      var name := (if prefix.Some? then prefix.value + "." else "") + date + tail;
      && StripBefore(name, prefix) == Some(date + tail)
      && StripAfter(date + tail, suffix) == Some(date)
  {
    var tail := if suffix.Some? then "." + suffix.value else "";
    if prefix.Some? {
      assert prefix.value + "." + date + tail == prefix.value + "." + (date + tail);
      StripBeforeRest(prefix.value, date + tail);
    } else {
      assert "" + date + tail == date + tail;
    }
    if suffix.Some? {
      StripAfterDate(date, suffix.value);
    } else {
      assert date + "" == date;
    }
  }

  lemma JoinShape(c: Config, t: Time)
    requires !c.rotation.Never? && Representable(Stamp(c, t))
    ensures
      var date := Format(DateFormat(c.rotation), Stamp(c, t));
      JoinDate(c, t) == (if c.prefix.Some? then c.prefix.value + "." else "") + date
                        + (if c.suffix.Some? then "." + c.suffix.value else "")
  {
    var date := Format(DateFormat(c.rotation), Stamp(c, t));
    if c.prefix.Some? && c.suffix.Some? {
      assert c.prefix.value + "." + date + "." + c.suffix.value == c.prefix.value + "." + date + ("." + c.suffix.value);
    } else if c.suffix.Some? {
      assert date + "." + c.suffix.value == "" + date + ("." + c.suffix.value);
    } else if c.prefix.Some? {
      assert c.prefix.value + "." + date == c.prefix.value + "." + date + "";
    } else {
      assert date == "" + date + "";
    }
  }

  /** The start of the period can be read off the name, for any prefix and suffix. */
  lemma NameRoundTrip(c: Config, t: Time)
    requires !c.rotation.Never? && t.Valid() && Representable(RoundDate(c.rotation, t))
    ensures ParseDateFromFilename(JoinDate(c, t), DateFormat(c.rotation), c.prefix, c.suffix)
         == Some(RoundDate(c.rotation, t))
  {
    JoinShape(c, t);
    StripBoth(Format(DateFormat(c.rotation), Stamp(c, t)), c.prefix, c.suffix);
    RoundedRoundTrip(c.rotation, t);
  }

  /** Two times share a file exactly when they share a period. */
  lemma SameNameIffSamePeriod(c: Config, t: Time, u: Time)
    requires !c.rotation.Never? && t.Valid() && u.Valid()
    requires Representable(RoundDate(c.rotation, t)) && Representable(RoundDate(c.rotation, u))
    ensures JoinDate(c, t) == JoinDate(c, u) <==> RoundDate(c.rotation, t) == RoundDate(c.rotation, u)
  {
    NameRoundTrip(c, t);
    NameRoundTrip(c, u);
  }

  /** Without rotation the name is made of prefix and suffix alone, with a dot between them if there are
      both; only if there is neither is it the date. */
  lemma NeverNames(c: Config, t: Time)
    requires c.rotation.Never? && Representable(t)
    ensures
      var name := JoinDate(c, t);
      if c.prefix.None? && c.suffix.None? then name == Format(Ymd, t)
      else
        var rest := if c.prefix.Some? then StripPrefix(name, c.prefix.value) else Some(name);
        && rest.Some?
        && (if c.suffix.Some? then StripSuffix(rest.value, c.suffix.value) else rest)
           == Some(if c.prefix.Some? && c.suffix.Some? then "." else "")
  {
    if c.prefix.Some? && c.suffix.Some? {
      var p, s := c.prefix.value, c.suffix.value;
      assert p + "." + s == p + ("." + s);
      assert ("." + s)[1..] == s && ("." + s)[..1] == ".";
    } else if c.prefix.Some? {
      assert c.prefix.value + "" == c.prefix.value;
    } else if c.suffix.Some? {
      assert c.suffix.value[0..] == c.suffix.value;
    }
  }

  /** So with a prefix or a suffix it is the same at all times. */
  lemma NeverNameIsFixed(c: Config, t: Time, u: Time)
    requires c.rotation.Never? && Representable(t) && Representable(u) && (c.prefix.Some? || c.suffix.Some?)
    ensures JoinDate(c, t) == JoinDate(c, u)
  {
  }

  /** The part of the filter in `prune_old_logs` that looks at the name alone. */
  predicate PassesNameFilter(c: Config, name: string) {
    && (c.prefix.Some? ==> c.prefix.value <= name)
    && (c.suffix.Some? ==> EndsWith(name, c.suffix.value))
    && (c.prefix.None? && c.suffix.None? ==> ParseDate(DateFormat(c.rotation), name).Some?)
  }

  /** The files of a rotating appender are among those that it may prune, and their age can be told from their names. */
  lemma OwnNamesPassFilter(c: Config, t: Time)
    requires !c.rotation.Never? && t.Valid() && Representable(RoundDate(c.rotation, t))
    ensures PassesNameFilter(c, JoinDate(c, t))
    ensures ParseDateFromFilename(JoinDate(c, t), DateFormat(c.rotation), c.prefix, c.suffix).Some?
  {
    NameRoundTrip(c, t);
    JoinShape(c, t);
    RoundedRoundTrip(c.rotation, t);
    var date := Format(DateFormat(c.rotation), Stamp(c, t));
    StripBoth(date, c.prefix, c.suffix);
    if c.suffix.Some? {
      var name := JoinDate(c, t);
      var head := (if c.prefix.Some? then c.prefix.value + "." else "") + date + ".";
      assert name == head + c.suffix.value;
      assert name[|head|..] == c.suffix.value;
    }
    if c.prefix.None? && c.suffix.None? {
      assert "" + date + "" == date;
    }
  }
}
