/** Which texts are date-times, and of which time: the grammar of section 5.6 of RFC 3339 as Go reads it,
    with a one-digit hour and a comma before the fraction let through, and the texts Go writes. */
module DateTimes {
  import opened Base
  import opened Decimal
  import opened Calendar

  /** The parts of a date-time as they are written, and the numbers they stand for. */
  datatype Written = Written(date: Date, hour: nat, minute: nat, second: nat, nanos: nat, offset: int,
                             hourText: string, fraction: string, zone: string)

  predicate IsHourText(s: string, h: nat) {
    h < 24 && (s == Pad2(h) || (h < 10 && s == [DigitOf(h)]))
  }

  predicate AllDigits(s: string) { forall i :: 0 <= i < |s| ==> IsDigit(s[i]) }

  /** Nothing, or a period or comma and digits, whose first nine count, filled up with zeros. */
  predicate IsFraction(s: string, nanos: nat) {
    || (s == "" && nanos == 0)
    || (|s| >= 2 && s[0] in ['.', ','] && AllDigits(s[1..]) && ParseNat((s[1..] + "000000000")[..9]) == Some(nanos))
  }

  predicate IsZone(s: string, offset: int) {
    || (s == "Z" && offset == 0)
    || exists h: nat, m: nat :: h < 24 && m < 60
         && ((s == ['+'] + (Pad2(h) + ([':'] + Pad2(m))) && offset == 60 * h + m)
             || (s == ['-'] + (Pad2(h) + ([':'] + Pad2(m))) && offset == -(60 * h + m)))
  }

  predicate WellWritten(w: Written) {
    && ValidDate(w.date) && w.date.year < 10000
    && w.minute < 60 && w.second < 60
    && IsHourText(w.hourText, w.hour) && IsFraction(w.fraction, w.nanos) && IsZone(w.zone, w.offset)
  }

  /** year-month-dayThour:minute:second, fraction, zone. */
  function Text(w: Written): string
    requires WellWritten(w)
  {
    Pad4(w.date.year) + (['-'] + (Pad2(w.date.month) + (['-'] + (Pad2(w.date.day) + (['T'] + ClockText(w))))))
  }

  function ClockText(w: Written): string
    requires WellWritten(w)
  {
    w.hourText + ([':'] + (Pad2(w.minute) + ([':'] + (Pad2(w.second) + (w.fraction + w.zone)))))
  }

  /** The time meant: 719528 days lie between the year 0 and the Unix epoch. */
  function Meant(w: Written): Time
    requires WellWritten(w)
  {
    Time(86400 * (DayNumber(w.date) - 719528) + 3600 * w.hour + 60 * w.minute + w.second - 60 * w.offset,
         w.nanos, w.offset)
  }

  ghost predicate IsDateTime(s: string, t: Time) {
    exists w :: WellWritten(w) && s == Text(w) && t == Meant(w)
  }

  // ---------- Fields ----------

  lemma DigitOfValue(c: char)
    requires IsDigit(c)
    ensures DigitOf(ValueOf(c)) == c
  {
  }

  lemma TookTwo(s: string)
    requires TakeTwo(s).Some?
    ensures s == Pad2(TakeTwo(s).value.value) + TakeTwo(s).value.rest
  {
    DigitOfValue(s[0]);
    DigitOfValue(s[1]);
    assert s == [s[0], s[1]] + s[2..];
  }

  lemma TookFour(s: string)
    requires TakeFour(s).Some?
    ensures s == Pad4(TakeFour(s).value.value) + TakeFour(s).value.rest
  {
    hide TakeTwo, Pad2;
    TookTwo(s);
    TookTwo(TakeTwo(s).value.rest);
    var hi, lo := TakeTwo(s).value.value, TakeTwo(TakeTwo(s).value.rest).value.value;
    assert (100 * hi + lo) / 100 == hi && (100 * hi + lo) % 100 == lo;
  }

  lemma TookChar(s: string, c: char)
    requires TakeChar(s, c).Some?
    ensures s == [c] + TakeChar(s, c).value
  {
  }

  lemma TookHour(s: string) returns (text: string)
    requires TakeHour(s).Some? && TakeHour(s).value.value < 24
    ensures IsHourText(text, TakeHour(s).value.value) && s == text + TakeHour(s).value.rest
  {
    if TakeTwo(s).Some? {
      TookTwo(s);
      text := Pad2(TakeTwo(s).value.value);
    } else {
      DigitOfValue(s[0]);
      text := [s[0]];
      assert s == [s[0]] + s[1..];
    }
  }

  lemma TakeHourOf(text: string, h: nat, rest: string)
    requires IsHourText(text, h)
    ensures TakeHour(text + ([':'] + rest)) == Some(Read(h, [':'] + rest))
  {
    var s := text + ([':'] + rest);
    if text == Pad2(h) {
      TakeTwoOfPad(h, [':'] + rest);
    } else {
      assert s[0] == DigitOf(h) && s[1] == ':' && s[1..] == [':'] + rest;
    }
  }

  lemma TookDate(s: string)
    requires TakeDate(s).Some?
    ensures var d := TakeDate(s).value.0;
      s == Pad4(d.year) + (['-'] + (Pad2(d.month) + (['-'] + (Pad2(d.day) + TakeDate(s).value.1))))
  {
    hide TakeFour, TakeTwo, TakeChar, Pad4, Pad2, ValidDate;
    TookFour(s);
    var y := TakeFour(s).value;
    TookChar(y.rest, '-');
    var s1 := TakeChar(y.rest, '-').value;
    TookTwo(s1);
    var m := TakeTwo(s1).value;
    TookChar(m.rest, '-');
    TookTwo(TakeChar(m.rest, '-').value);
  }

  // ---------- Fractions ----------

  /** A digit string filled up with zeros, read to k places. */
  lemma {:induction false} FractionIsPadded(ds: string, padded: string, k: nat)
    requires AllDigits(ds) && 1 <= k <= |padded|
    requires forall i :: 0 <= i < |padded| ==> padded[i] == if i < |ds| then ds[i] else '0'
    ensures ParseNat(padded[..k]) == Some(FractionValue(ds, k))
  {
    if k > 1 {
      FractionIsPadded(ds, padded, k - 1);
      assert padded[..k][..k - 1] == padded[..k - 1];
    } else {
      assert FractionValue(ds, 0) == 0;
    }
  }

  lemma NineDigits(ds: string)
    requires AllDigits(ds)
    ensures ParseNat((ds + "000000000")[..9]) == Some(FractionValue(ds, 9))
  {
    var padded := (ds + "000000000")[..9];
    assert padded[..9] == padded;
    FractionIsPadded(ds, padded, 9);
  }

  lemma {:induction false} RunOfDigits(ds: string, rest: string)
    requires AllDigits(ds) && (rest == "" || !IsDigit(rest[0]))
    ensures DigitRun(ds + rest) == |ds|
  {
    if ds != "" {
      assert (ds + rest)[1..] == ds[1..] + rest;
      RunOfDigits(ds[1..], rest);
    } else {
      assert ds + rest == rest;
    }
  }

  lemma ZoneStart(zone: string, offset: int)
    requires IsZone(zone, offset)
    ensures zone != "" && zone[0] in ['Z', '+', '-'] && -1440 < offset < 1440
  {
  }

  /** A fraction before a zone is read as the nanoseconds it stands for. */
  lemma TakeFractionOf(f: string, nanos: nat, zone: string, offset: int)
    requires IsFraction(f, nanos) && IsZone(zone, offset)
    ensures TakeFraction(f + zone) == Read(nanos, zone)
  {
    ZoneStart(zone, offset);
    hide IsZone;
    if f == "" {
      assert f + zone == zone;
    } else {
      var s, ds := f + zone, f[1..];
      assert s[0] == f[0] && s[1] == ds[0] && s[1..] == ds + zone;
      RunOfDigits(ds, zone);
      assert (ds + zone)[..|ds|] == ds && (ds + zone)[|ds|..] == zone;
      NineDigits(ds);
      hide DigitRun, FractionValue, ParseNat;
    }
  }

  lemma TookFraction(s: string) returns (f: string)
    ensures IsFraction(f, TakeFraction(s).value) && s == f + TakeFraction(s).rest
  {
    if |s| >= 2 && (s[0] == '.' || s[0] == ',') && IsDigit(s[1]) {
      var n := DigitRun(s[1..]);
      f := s[..n + 1];
      assert f[1..] == s[1..][..n];
      NineDigits(f[1..]);
    } else {
      f := "";
    }
  }

  // ---------- Zones ----------

  lemma ReadSignedZone(sign: char, h: nat, m: nat)
    requires sign in ['+', '-'] && h < 24 && m < 60
    ensures ReadZone([sign] + (Pad2(h) + ([':'] + Pad2(m)))) == Some(if sign == '-' then -(60 * h + m) else 60 * h + m)
  {
    var rest := Pad2(h) + ([':'] + Pad2(m));
    var zone := [sign] + rest;
    assert |zone| == 6 && zone[0] == sign && zone[1..] == rest;
    TakeTwoOfPad(h, [':'] + Pad2(m));
    TakeCharOf(':', Pad2(m));
    TakeTwoOfPad(m, "");
    assert Pad2(m) + "" == Pad2(m);
    hide Pad2, TakeTwo, TakeChar;
  }

  lemma ReadZoneOf(zone: string, offset: int)
    requires IsZone(zone, offset)
    ensures ReadZone(zone) == Some(offset)
  {
    hide Pad2, TakeTwo, TakeChar;
    if zone != "Z" {
      var h: nat, m: nat :| h < 24 && m < 60
        && ((zone == ['+'] + (Pad2(h) + ([':'] + Pad2(m))) && offset == 60 * h + m)
            || (zone == ['-'] + (Pad2(h) + ([':'] + Pad2(m))) && offset == -(60 * h + m)));
      hide ReadZone;
      ReadSignedZone('+', h, m);
      ReadSignedZone('-', h, m);
    }
  }

  lemma WasZone(s: string)
    requires ReadZone(s).Some?
    ensures IsZone(s, ReadZone(s).value)
  {
    if s != "Z" {
      TookTwo(s[1..]);
      var h := TakeTwo(s[1..]).value;
      TookChar(h.rest, ':');
      var s1 := TakeChar(h.rest, ':').value;
      TookTwo(s1);
      var m := TakeTwo(s1).value;
      assert m.rest == "" && s1 == Pad2(m.value);
      assert s == [s[0]] + s[1..];
    }
  }

  // ---------- The whole text ----------

  lemma TakeClockOf(w: Written)
    requires WellWritten(w)
    ensures TakeClock(ClockText(w)) == Some(Read(3600 * w.hour + 60 * w.minute + w.second, w.fraction + w.zone))
  {
    var s2 := Pad2(w.second) + (w.fraction + w.zone);
    var s1 := Pad2(w.minute) + ([':'] + s2);
    hide IsHourText, IsFraction, IsZone, TakeHour, TakeTwo, TakeChar, Pad2;
    assert w.hour < 24 by { HourInDay(w.hourText, w.hour); }
    TakeHourOf(w.hourText, w.hour, s1);
    TakeCharOf(':', s1);
    TakeTwoOfPad(w.minute, [':'] + s2);
    TakeCharOf(':', s2);
    TakeTwoOfPad(w.second, w.fraction + w.zone);
  }

  lemma HourInDay(s: string, h: nat)
    requires IsHourText(s, h)
    ensures h < 24
  {
  }

  lemma TimeMeant(w: Written)
    requires WellWritten(w) && w.nanos < NANOS && -1440 < w.offset < 1440
    requires 3600 * w.hour + 60 * w.minute + w.second < 86400
    ensures TimeAt(w.date, 3600 * w.hour + 60 * w.minute + w.second, w.nanos, w.offset) == Meant(w)
  {
    hide IsHourText, IsFraction, IsZone, DayNumber;
  }

  lemma WrittenIsParsed(w: Written)
    requires WellWritten(w)
    ensures ParseTime(Text(w)) == Some(Meant(w))
  {
    hide IsHourText, IsFraction, IsZone, TakeDate, TakeClock, TakeFraction, ReadZone, TakeChar, TimeAt, Pad2, Pad4,
         ClockText, Meant, ValidDate;
    TakeDateOfPrint(w.date, ['T'] + ClockText(w));
    TakeCharOf('T', ClockText(w));
    TakeClockOf(w);
    TakeFractionOf(w.fraction, w.nanos, w.zone, w.offset);
    ReadZoneOf(w.zone, w.offset);
    TimeMeant(w);
  }

  lemma TookClock(s: string) returns (h: nat, m: nat, sec: nat, text: string)
    requires TakeClock(s).Some?
    ensures IsHourText(text, h) && m < 60 && sec < 60 && TakeClock(s).value.value == 3600 * h + 60 * m + sec
    ensures s == text + ([':'] + (Pad2(m) + ([':'] + (Pad2(sec) + TakeClock(s).value.rest))))
  {
    hide IsHourText, TakeHour, TakeTwo, TakeChar, Pad2;
    var hour := TakeHour(s).value;
    text := TookHour(s);
    TookChar(hour.rest, ':');
    var s1 := TakeChar(hour.rest, ':').value;
    TookTwo(s1);
    var minute := TakeTwo(s1).value;
    TookChar(minute.rest, ':');
    var s2 := TakeChar(minute.rest, ':').value;
    TookTwo(s2);
    h, m, sec := hour.value, minute.value, TakeTwo(s2).value.value;
  }

  lemma ParsedIsWritten(s: string) returns (w: Written)
    requires ParseTime(s).Some?
    ensures WellWritten(w) && s == Text(w) && ParseTime(s) == Some(Meant(w))
  {
    hide IsHourText, IsFraction, IsZone, TakeDate, TakeClock, TakeFraction, ReadZone, TakeChar, TimeAt, Pad2, Pad4,
         Meant, ValidDate;
    TookDate(s);
    var (date, s1) := TakeDate(s).value;
    TookChar(s1, 'T');
    var s2 := TakeChar(s1, 'T').value;
    var h, m, sec, text := TookClock(s2);
    var rest := TakeClock(s2).value.rest;
    var f := TookFraction(rest);
    var zone := TakeFraction(rest).rest;
    WasZone(zone);
    w := Written(date, h, m, sec, TakeFraction(rest).value, ReadZone(zone).value, text, f, zone);
    assert s2 == ClockText(w);
    TimeMeant(w);
  }

  /** Reading, exactly: a text is read as a time if and only if it is a date-time that means it. */
  lemma ParsesExactly(s: string, t: Time)
    ensures ParseTime(s) == Some(t) <==> IsDateTime(s, t)
  {
    hide ParseTime, WellWritten, Text, Meant;
    if ParseTime(s).Some? {
      var w := ParsedIsWritten(s);
    }
    if w :| WellWritten(w) && s == Text(w) && t == Meant(w) {
      WrittenIsParsed(w);
    }
  }

  // ---------- Writing ----------

  lemma PrintedZone(offset: int)
    requires -1440 < offset < 1440
    ensures IsZone(PrintZone(offset), offset)
  {
    if offset != 0 {
      var h, m := Magnitude(offset) / 60, Magnitude(offset) % 60;
      assert h < 24 && m < 60;
      hide Pad2;
      assert PrintZone(offset) == [if offset < 0 then '-' else '+'] + (Pad2(h) + ([':'] + Pad2(m)));
    }
  }

  /** Writing, exactly: the date-time of the whole second in the zone of t, with a two-digit hour, no
      fraction, and Z exactly for the offset zero. */
  lemma PrintsExactly(t: Time) returns (w: Written)
    requires Printable(t)
    ensures WellWritten(w) && PrintTime(t) == Text(w) && Meant(w) == t.(nanos := 0)
    ensures w.fraction == "" && |w.hourText| == 2 && (w.zone == "Z" <==> t.offset == 0)
  {
    WallYear(t);
    ClockFields(t);
    PrintedZone(t.offset);
    w := Written(WallDate(t), Hour(t), Minute(t), Second(t), 0, t.offset, Pad2(Hour(t)), "", PrintZone(t.offset));
    assert w.fraction + w.zone == w.zone;
    hide IsZone, Pad2, Pad4, DayNumber, ValidDate, WallDate;
    assert ClockText(w) == PrintClockAndZone(t);
  }

  // ---------- A transition time the operator writes ----------

  const APRIL_27: Date := Date(2023, 4, 27)

  lemma DayOfApril27()
    ensures ValidDate(APRIL_27) && DayNumber(APRIL_27) == 719528 + 19474
  {
    assert DaysBeforeMonth(2023, 2) == 31;
    assert DaysBeforeMonth(2023, 3) == 59;
    assert DaysBeforeMonth(2023, 4) == 90;
  }

  lemma Microseconds()
    ensures IsFraction(".226244", 226244000)
  {
    var ds := "226244";
    assert ".226244"[1..] == ds;
    var padded := (ds + "000000000")[..9];
    assert padded == "226244000";
    assert padded[..8] == "22624400" && "22624400"[..7] == "2262440" && "2262440"[..6] == "226244";
    assert "226244"[..5] == "22624" && "22624"[..4] == "2262" && "2262"[..3] == "226" && "226"[..2] == "22";
    assert ParseNat("226") == Some(226) by { assert "22"[..1] == "2"; }
    assert ParseNat("226244") == Some(226244);
    assert ParseNat(padded) == Some(226244000);
  }

  lemma Fields()
    ensures Pad4(2023) == "2023" && Pad2(4) == "04" && Pad2(27) == "27" && Pad2(9) == "09" && Pad2(22) == "22"
  {
  }

  /** The text 2023-04-27T09:22:22 and what follows it. */
  lemma AprilText(rest: string)
    ensures Pad4(2023) + (['-'] + (Pad2(4) + (['-'] + (Pad2(27) + (['T']
              + (Pad2(9) + ([':'] + (Pad2(22) + ([':'] + (Pad2(22) + rest))))))))))
         == "2023-04-27T09:22:22" + rest
  {
    Fields();
    hide Pad2, Pad4;
    assert "09" + ([':'] + ("22" + ([':'] + ("22" + rest)))) == "09:22:22" + rest;
    assert "2023" + (['-'] + ("04" + (['-'] + ("27" + (['T'] + ("09:22:22" + rest)))))) == "2023-04-27T09:22:22" + rest;
  }

  lemma AprilClock(t: Time)
    requires t.unix == 1682587342 && t.offset == 0
    ensures WallSeconds(t) / 86400 == 739002 && Hour(t) == 9 && Minute(t) == 22 && Second(t) == 22
  {
  }

  lemma AprilIsPrintable(nanos: nat)
    requires nanos < 1_000_000_000
    ensures Printable(Time(1682587342, nanos, 0))
  {
  }

  lemma ParsedApril(fraction: string, nanos: nat)
    requires IsFraction(fraction, nanos)
    ensures ParseTime("2023-04-27T09:22:22" + (fraction + "Z")) == Some(Time(1682587342, nanos, 0))
  {
    var w := Written(APRIL_27, 9, 22, 22, nanos, 0, Pad2(9), fraction, "Z");
    DayOfApril27();
    hide Pad2, Pad4, DayNumber, ParseTime, IsFraction;
    AprilText(fraction + "Z");
    WrittenIsParsed(w);
  }

  lemma PrintedApril(t: Time)
    requires t.unix == 1682587342 && t.offset == 0 && Printable(t)
    ensures PrintTime(t) == "2023-04-27T09:22:22" + "Z"
  {
    hide Pad2, Pad4, DayNumber, WallSeconds, Hour, Minute, Second, Printable, ValidDate, WallDate;
    AprilClock(t);
    AprilDate(t);
    AprilText("Z");
  }

  lemma AprilDate(t: Time)
    requires t.unix == 1682587342 && t.offset == 0
    ensures WallSeconds(t) >= 0 && WallDate(t) == APRIL_27
  {
    hide DaysBeforeYear, DaysBeforeMonth;
    DayOfApril27();
    AprilClock(t);
    DayNumberInjective(WallDate(t), APRIL_27);
  }

  /** Six digits of a second, as the operator writes them; the restart is due at the whole second. */
  lemma TransitionTime()
    ensures ParseTime("2023-04-27T09:22:22.226244Z") == Some(Time(1682587342, 226244000, 0))
    ensures Printable(Time(1682587342, 226244000, 0))
    ensures PrintTime(Time(1682587342, 226244000, 0)) == "2023-04-27T09:22:22Z"
  {
    hide ParseTime, Printable, PrintTime, IsFraction;
    Microseconds();
    AprilIsPrintable(226244000);
    ParsedApril(".226244", 226244000);
    PrintedApril(Time(1682587342, 226244000, 0));
    assert "2023-04-27T09:22:22" + (".226244" + "Z") == "2023-04-27T09:22:22.226244Z";
    assert "2023-04-27T09:22:22" + "Z" == "2023-04-27T09:22:22Z";
  }
}
