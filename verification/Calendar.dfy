/** Instants, the proleptic Gregorian calendar, and the date-times of section 5.6 of RFC 3339
    as Go's time package prints and reads them. */
module Calendar {
  import opened Base
  import opened Decimal

  predicate Leap(y: nat) { y % 4 == 0 && (y % 100 != 0 || y % 400 == 0) }

  function DaysInMonth(y: nat, m: nat): (d: nat)
    requires 1 <= m <= 12
    ensures 28 <= d <= 31
  {
    if m == 2 then (if Leap(y) then 29 else 28)
    else if m in {4, 6, 9, 11} then 30 else 31
  }

  /** Days from 0000-01-01 to the first day of year y. */
  function DaysBeforeYear(y: nat): int {
    365 * y + (y + 3) / 4 - (y + 99) / 100 + (y + 399) / 400
  }

  function DaysBeforeMonth(y: nat, m: nat): nat
    requires 1 <= m <= 13
  {
    if m == 1 then 0 else DaysBeforeMonth(y, m - 1) + DaysInMonth(y, m - 1)
  }

  datatype Date = Date(year: nat, month: nat, day: nat)

  predicate ValidDate(d: Date) {
    1 <= d.month <= 12 && 1 <= d.day <= DaysInMonth(d.year, d.month)
  }

  /** Days from 0000-01-01 to d. */
  function DayNumber(d: Date): int
    requires ValidDate(d)
  {
    DaysBeforeYear(d.year) + DaysBeforeMonth(d.year, d.month) + d.day - 1
  }

  lemma LeapSteps(y: nat)
    ensures DaysBeforeYear(y + 1) - DaysBeforeYear(y) == (if Leap(y) then 366 else 365)
  {
    Quarter(y);
    Century(y);
    FourCenturies(y);
  }

  lemma Quarter(y: nat)
    ensures (y + 4) / 4 - (y + 3) / 4 == (if y % 4 == 0 then 1 else 0)
  {
  }

  lemma Century(y: nat)
    ensures (y + 100) / 100 - (y + 99) / 100 == (if y % 100 == 0 then 1 else 0)
    ensures y % 100 == 0 ==> y % 4 == 0
  {
    var q, r := y / 100, y % 100;
    assert y == 100 * q + r;
    assert (y + 100) / 100 == q + 1;
    assert (y + 99) / 100 == if r == 0 then q else q + 1;
    assert r == 0 ==> y == 4 * (25 * q);
  }

  lemma FourCenturies(y: nat)
    ensures (y + 400) / 400 - (y + 399) / 400 == (if y % 400 == 0 then 1 else 0)
    ensures y % 400 == 0 ==> y % 100 == 0
  {
    var q, r := y / 400, y % 400;
    assert y == 400 * q + r;
    assert (y + 400) / 400 == q + 1;
    assert (y + 399) / 400 == if r == 0 then q else q + 1;
    assert r == 0 ==> y == 100 * (4 * q);
  }

  lemma MonthTable(y: nat)
    ensures DaysBeforeMonth(y, 13) == 337 + DaysInMonth(y, 2)
  {
    assert DaysBeforeMonth(y, 3) == 31 + DaysInMonth(y, 2) by {
      assert DaysBeforeMonth(y, 2) == DaysBeforeMonth(y, 1) + 31;
    }
    assert DaysBeforeMonth(y, 5) == DaysBeforeMonth(y, 4) + 30 && DaysBeforeMonth(y, 4) == DaysBeforeMonth(y, 3) + 31;
    assert DaysBeforeMonth(y, 7) == DaysBeforeMonth(y, 6) + 30 && DaysBeforeMonth(y, 6) == DaysBeforeMonth(y, 5) + 31;
    assert DaysBeforeMonth(y, 9) == DaysBeforeMonth(y, 8) + 31 && DaysBeforeMonth(y, 8) == DaysBeforeMonth(y, 7) + 31;
    assert DaysBeforeMonth(y, 11) == DaysBeforeMonth(y, 10) + 31
        && DaysBeforeMonth(y, 10) == DaysBeforeMonth(y, 9) + 30;
    assert DaysBeforeMonth(y, 13) == DaysBeforeMonth(y, 12) + 31
        && DaysBeforeMonth(y, 12) == DaysBeforeMonth(y, 11) + 30;
  }

  /** The months of a year add up to the distance to the next year. */
  lemma YearLength(y: nat)
    ensures DaysBeforeYear(y) + DaysBeforeMonth(y, 13) == DaysBeforeYear(y + 1)
    ensures DaysBeforeYear(y) + 365 <= DaysBeforeYear(y + 1) <= DaysBeforeYear(y) + 366
  {
    LeapSteps(y);
    MonthTable(y);
  }

  lemma {:induction false} YearsIncrease(a: nat, b: nat)
    requires a <= b
    ensures DaysBeforeYear(a) + 365 * (b - a) <= DaysBeforeYear(b)
    decreases b
  {
    if a < b {
      YearsIncrease(a, b - 1);
      YearLength(b - 1);
    }
  }

  lemma {:induction false} MonthsIncrease(y: nat, a: nat, b: nat)
    requires 1 <= a <= b <= 13
    ensures DaysBeforeMonth(y, a) + 28 * (b - a) <= DaysBeforeMonth(y, b)
  {
    if a < b {
      MonthsIncrease(y, a, b - 1);
    }
  }

  /** The year, at or after y, that holds day number n. */
  function YearAt(n: int, y: nat): (r: nat)
    requires DaysBeforeYear(y) <= n
    ensures DaysBeforeYear(r) <= n < DaysBeforeYear(r + 1)
    decreases n - DaysBeforeYear(y)
  {
    YearLength(y);
    if n < DaysBeforeYear(y + 1) then y else YearAt(n, y + 1)
  }

  /** The month, at or after m, that holds day k of year y. */
  function MonthAt(y: nat, k: nat, m: nat): (r: nat)
    requires 1 <= m <= 12 && DaysBeforeMonth(y, m) <= k < DaysBeforeMonth(y, 13)
    ensures 1 <= r <= 12 && DaysBeforeMonth(y, r) <= k < DaysBeforeMonth(y, r + 1)
    decreases 13 - m
  {
    if k < DaysBeforeMonth(y, m + 1) then m else MonthAt(y, k, m + 1)
  }

  /** The calendar date of day number n. */
  function DateOf(n: nat): (d: Date)
    ensures ValidDate(d) && DayNumber(d) == n
  {
    var y := YearAt(n, 0);
    YearLength(y);
    var k := n - DaysBeforeYear(y);
    var m := MonthAt(y, k, 1);
    Date(y, m, k - DaysBeforeMonth(y, m) + 1)
  }

  /** A day lies in one year only, and a day of a year in one month only. */
  lemma OneYear(n: int, y: nat, z: nat)
    requires DaysBeforeYear(y) <= n < DaysBeforeYear(y + 1) && DaysBeforeYear(z) <= n < DaysBeforeYear(z + 1)
    ensures y == z
  {
    var first, last := if y <= z then y else z, if y <= z then z else y;
    YearsIncrease(first, last);
    YearLength(first);
  }

  lemma OneMonth(y: nat, k: int, m: nat, l: nat)
    requires 1 <= m <= 12 && 1 <= l <= 12
    requires DaysBeforeMonth(y, m) <= k < DaysBeforeMonth(y, m + 1)
        && DaysBeforeMonth(y, l) <= k < DaysBeforeMonth(y, l + 1)
    ensures m == l
  {
    var first, last := if m <= l then m else l, if m <= l then l else m;
    if first != last {
      MonthsIncrease(y, first + 1, last);
    }
  }

  /** Two valid dates with the same day number are the same date, so DateOf inverts DayNumber. */
  lemma DayNumberInjective(a: Date, b: Date)
    requires ValidDate(a) && ValidDate(b) && DayNumber(a) == DayNumber(b)
    ensures a == b
  {
    WithinYear(a);
    WithinYear(b);
    hide DaysBeforeYear;
    OneYear(DayNumber(a), a.year, b.year);
    OneMonth(a.year, DayNumber(a) - DaysBeforeYear(a.year), a.month, b.month);
  }

  lemma WithinYear(d: Date)
    requires ValidDate(d)
    ensures DaysBeforeYear(d.year) <= DayNumber(d) < DaysBeforeYear(d.year + 1)
  {
    YearLength(d.year);
    MonthsIncrease(d.year, d.month + 1, 13);
  }

  // ---------- Instants ----------

  /** Seconds from 0000-01-01T00:00:00Z to the Unix epoch, 719528 days of 86400 seconds. */
  const EPOCH: int := 62167219200
  const NANOS: int := 1_000_000_000

  /** A Go time.Time: Unix seconds, nanoseconds, and the zone offset in minutes east of UTC. */
  datatype Time = Time(unix: int, nanos: int, offset: int)

  /** Nanoseconds since the Unix epoch; this is what comparing two times compares. */
  function Instant(t: Time): int { t.unix * NANOS + t.nanos }

  /** Wall-clock seconds since 0000-01-01T00:00:00 in the zone of t. */
  function WallSeconds(t: Time): int { t.unix + 60 * t.offset + EPOCH }

  /** Times whose wall clock has a four-digit year and whose offset is below a day: all that reading
      a date-time can give. */
  ghost predicate Printable(t: Time) {
    && 0 <= t.nanos < NANOS
    && -1440 < t.offset < 1440
    && 0 <= WallSeconds(t) < DaysBeforeYear(10000) * 86400
  }

  /** The zero time.Time, 0001-01-01T00:00:00Z. */
  const ZERO_TIME: Time := Time(-62135596800, 0, 0)

  predicate IsZero(t: Time) { Instant(t) == Instant(ZERO_TIME) }

  lemma ZeroTimeIsYearOne()
    ensures Printable(ZERO_TIME)
    ensures WallSeconds(ZERO_TIME) == DayNumber(Date(1, 1, 1)) * 86400
  {
  }

  function Hour(t: Time): nat { WallSeconds(t) % 86400 / 3600 }
  function Minute(t: Time): nat { WallSeconds(t) % 3600 / 60 }
  function Second(t: Time): nat { WallSeconds(t) % 60 }

  function WallDate(t: Time): (d: Date)
    requires WallSeconds(t) >= 0
    ensures ValidDate(d) && DayNumber(d) == WallSeconds(t) / 86400
  {
    DateOf(WallSeconds(t) / 86400)
  }

  lemma WallYear(t: Time)
    requires Printable(t)
    ensures WallDate(t).year < 10000
  {
    var d := WallDate(t);
    WithinYear(d);
    if d.year >= 10000 {
      YearsIncrease(10000, d.year);
    }
  }

  // ---------- Printing and reading ----------

  function Magnitude(z: int): nat { if z < 0 then -z else z }

  function PrintZone(offset: int): string
    requires -1440 < offset < 1440
  {
    if offset == 0 then "Z"
    else [if offset < 0 then '-' else '+'] + (Pad2(Magnitude(offset) / 60) + ([':'] + Pad2(Magnitude(offset) % 60)))
  }

  /** The layout 15:04:05. */
  function PrintClock(t: Time): string {
    Pad2(Hour(t)) + ([':'] + (Pad2(Minute(t)) + ([':'] + Pad2(Second(t)))))
  }

  function PrintClockAndZone(t: Time): string
    requires -1440 < t.offset < 1440
  {
    Pad2(Hour(t)) + ([':'] + (Pad2(Minute(t)) + ([':'] + (Pad2(Second(t)) + PrintZone(t.offset)))))
  }

  /** t.Format(time.RFC3339): whole seconds, in the zone of t. */
  function PrintTime(t: Time): string
    requires Printable(t)
  {
    WallYear(t);
    var d := WallDate(t);
    Pad4(d.year) + (['-'] + (Pad2(d.month) + (['-'] + (Pad2(d.day) + (['T'] + PrintClockAndZone(t))))))
  }

  function TakeDate(s: string): (r: Option<(Date, string)>)
    ensures r.Some? ==> ValidDate(r.value.0) && r.value.0.year < 10000
  {
    match TakeFour(s)
    case None => None
    case Some(y) =>
      match TakeChar(y.rest, '-')
      case None => None
      case Some(s1) =>
        match TakeTwo(s1)
        case None => None
        case Some(m) =>
          match TakeChar(m.rest, '-')
          case None => None
          case Some(s2) =>
            match TakeTwo(s2)
            case None => None
            case Some(d) =>
              var date := Date(y.value, m.value, d.value);
              if ValidDate(date) then Some((date, d.rest)) else None
  }

  /** Hour, minute and second; gives the second of the day. */
  function TakeClock(s: string): (r: Option<Read>)
    ensures r.Some? ==> r.value.value < 86400
  {
    match TakeHour(s)
    case None => None
    case Some(h) =>
      match TakeChar(h.rest, ':')
      case None => None
      case Some(s1) =>
        match TakeTwo(s1)
        case None => None
        case Some(m) =>
          match TakeChar(m.rest, ':')
          case None => None
          case Some(s2) =>
            match TakeTwo(s2)
            case None => None
            case Some(sec) =>
              if h.value < 24 && m.value < 60 && sec.value < 60
              then Some(Read(3600 * h.value + 60 * m.value + sec.value, sec.rest))
              else None
  }

  function DigitRun(s: string): (n: nat)
    ensures n <= |s| && forall k :: 0 <= k < n ==> IsDigit(s[k])
  {
    if |s| > 0 && IsDigit(s[0]) then 1 + DigitRun(s[1..]) else 0
  }

  function PowerOfTen(k: nat): nat { if k == 0 then 1 else 10 * PowerOfTen(k - 1) }

  /** The first k digits of a fraction, padded with zeros to k places. */
  function FractionValue(digits: string, k: nat): (n: nat)
    requires forall i :: 0 <= i < |digits| ==> IsDigit(digits[i])
    ensures n < PowerOfTen(k)
  {
    if k == 0 then 0
    else 10 * FractionValue(digits, k - 1) + (if k - 1 < |digits| then ValueOf(digits[k - 1]) else 0)
  }

  /** An optional fraction of a second, introduced by a period or a comma; digits past the ninth are
      dropped. */
  function TakeFraction(s: string): (r: Read)
    ensures r.value < NANOS
  {
    if |s| >= 2 && (s[0] == '.' || s[0] == ',') && IsDigit(s[1]) then
      var n := DigitRun(s[1..]);
      assert NANOS == PowerOfTen(9) by { assert PowerOfTen(3) == 1000; assert PowerOfTen(6) == 1000000; }
      Read(FractionValue(s[1..][..n], 9), s[1..][n..])
    else Read(0, s)
  }

  /** The zone must be the whole of what is left. */
  function ReadZone(s: string): (r: Option<int>)
    ensures r.Some? ==> -1440 < r.value < 1440
  {
    if s == "Z" then Some(0)
    else if |s| == 6 && (s[0] == '+' || s[0] == '-') then
      match TakeTwo(s[1..])
      case None => None
      case Some(h) =>
        match TakeChar(h.rest, ':')
        case None => None
        case Some(s1) =>
          match TakeTwo(s1)
          case None => None
          case Some(m) =>
            if h.value < 24 && m.value < 60
            then Some(if s[0] == '-' then -(60 * h.value + m.value) else 60 * h.value + m.value)
            else None
    else None
  }

  /** The time whose wall clock shows the given second of the given day. */
  function TimeAt(date: Date, second: nat, nanos: nat, offset: int): (t: Time)
    requires ValidDate(date) && date.year < 10000 && second < 86400 && nanos < NANOS && -1440 < offset < 1440
    ensures Printable(t)
  {
    DayWithinYears(date);
    Time(DayNumber(date) * 86400 + second - 60 * offset - EPOCH, nanos, offset)
  }

  /** time.Parse(time.RFC3339, s). */
  function ParseTime(s: string): (r: Option<Time>)
    ensures r.Some? ==> Printable(r.value)
  {
    match TakeDate(s)
    case None => None
    case Some((date, s1)) =>
      match TakeChar(s1, 'T')
      case None => None
      case Some(s2) =>
        match TakeClock(s2)
        case None => None
        case Some(clock) =>
          var fraction := TakeFraction(clock.rest);
          match ReadZone(fraction.rest)
          case None => None
          case Some(offset) =>
            Some(TimeAt(date, clock.value, fraction.value, offset))
  }

  lemma DayWithinYears(d: Date)
    requires ValidDate(d) && d.year < 10000
    ensures 0 <= DayNumber(d) < DaysBeforeYear(10000)
  {
    WithinYear(d);
    YearsIncrease(0, d.year);
    YearsIncrease(d.year + 1, 10000);
  }

  // ---------- Reading back what was printed ----------

  lemma ReadZoneOfPrint(offset: int)
    requires -1440 < offset < 1440
    ensures ReadZone(PrintZone(offset)) == Some(offset)
  {
    if offset != 0 {
      var h, m := Magnitude(offset) / 60, Magnitude(offset) % 60;
      var z := PrintZone(offset);
      assert z[1..] == Pad2(h) + ([':'] + Pad2(m));
      TakeTwoOfPad(h, [':'] + Pad2(m));
      TakeCharOf(':', Pad2(m));
      TakeTwoOfPad(m, "");
      assert Pad2(m) + "" == Pad2(m);
    }
  }

  lemma TakeDateOfPrint(d: Date, rest: string)
    requires ValidDate(d) && d.year < 10000
    ensures TakeDate(Pad4(d.year) + (['-'] + (Pad2(d.month) + (['-'] + (Pad2(d.day) + rest))))) == Some((d, rest))
  {
    var s2 := Pad2(d.day) + rest;
    var s1 := Pad2(d.month) + (['-'] + s2);
    TakeFourOfPad(d.year, ['-'] + s1);
    TakeCharOf('-', s1);
    TakeTwoOfPad(d.month, ['-'] + s2);
    TakeCharOf('-', s2);
    TakeTwoOfPad(d.day, rest);
  }

  lemma TakeClockOfPrint(h: nat, m: nat, sec: nat, rest: string)
    requires h < 24 && m < 60 && sec < 60
    ensures TakeClock(Pad2(h) + ([':'] + (Pad2(m) + ([':'] + (Pad2(sec) + rest)))))
         == Some(Read(3600 * h + 60 * m + sec, rest))
  {
    var s2 := Pad2(sec) + rest;
    var s1 := Pad2(m) + ([':'] + s2);
    TakeTwoOfPad(h, [':'] + s1);
    TakeCharOf(':', s1);
    TakeTwoOfPad(m, [':'] + s2);
    TakeCharOf(':', s2);
    TakeTwoOfPad(sec, rest);
  }

  lemma TimeAtWall(t: Time)
    requires Printable(t)
    ensures WallDate(t).year < 10000
    ensures TimeAt(WallDate(t), WallSeconds(t) % 86400, 0, t.offset) == t.(nanos := 0)
  {
    WallYear(t);
  }

  lemma ParseTimeSteps(s: string, d: Date, clock: string, second: nat, zone: string, offset: int)
    requires TakeDate(s) == Some((d, ['T'] + clock))
    requires TakeClock(clock) == Some(Read(second, zone))
    requires TakeFraction(zone) == Read(0, zone) && ReadZone(zone) == Some(offset)
    ensures ValidDate(d) && d.year < 10000 && second < 86400 && -1440 < offset < 1440
    ensures ParseTime(s) == Some(TimeAt(d, second, 0, offset))
  {
    TakeCharOf('T', clock);
  }

  lemma TakeDateOfPrintTime(t: Time)
    requires Printable(t)
    ensures TakeDate(PrintTime(t)) == Some((WallDate(t), ['T'] + PrintClockAndZone(t)))
  {
    WallYear(t);
    TakeDateOfPrint(WallDate(t), ['T'] + PrintClockAndZone(t));
  }

  lemma SecondOfDay(w: int)
    ensures w % 86400 == 3600 * (w % 86400 / 3600) + 60 * (w % 3600 / 60) + w % 60
    ensures w % 86400 / 3600 < 24 && w % 3600 / 60 < 60
  {
    var days, hours, minutes := w / 86400, w / 3600, w / 60;
    assert w == 86400 * days + w % 86400;
    assert hours == 24 * days + w % 86400 / 3600;
    assert minutes == 60 * hours + w % 3600 / 60;
  }

  lemma ClockFields(t: Time)
    ensures 3600 * Hour(t) + 60 * Minute(t) + Second(t) == WallSeconds(t) % 86400
    ensures Hour(t) < 24 && Minute(t) < 60 && Second(t) < 60
  {
    SecondOfDay(WallSeconds(t));
  }

  lemma TakeClockOfPrintTime(t: Time)
    requires -1440 < t.offset < 1440
    ensures TakeClock(PrintClockAndZone(t)) == Some(Read(WallSeconds(t) % 86400, PrintZone(t.offset)))
  {
    ClockFields(t);
    TakeClockOfPrint(Hour(t), Minute(t), Second(t), PrintZone(t.offset));
  }

  lemma NoFractionInZone(offset: int)
    requires -1440 < offset < 1440
    ensures TakeFraction(PrintZone(offset)) == Read(0, PrintZone(offset))
  {
  }

  /** Printing drops the fraction of a second and nothing else. */
  lemma ParsePrintTime(t: Time)
    requires Printable(t)
    ensures ParseTime(PrintTime(t)) == Some(t.(nanos := 0))
  {
    var zone := PrintZone(t.offset);
    TakeDateOfPrintTime(t);
    TakeClockOfPrintTime(t);
    NoFractionInZone(t.offset);
    ReadZoneOfPrint(t.offset);
    ParseTimeSteps(PrintTime(t), WallDate(t), PrintClockAndZone(t), WallSeconds(t) % 86400, zone, t.offset);
    TimeAtWall(t);
  }
}
