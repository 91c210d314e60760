/** functions/vshn-postgres-func/schedule.go */
module Schedule {
  import opened Base
  import opened Decimal
  import opened Calendar
  import opened Payload
  import opened Store
  import opened Runtime

  /** 1970-01-01T21:00:00Z, and the eight hours from there to 05:00 of the next day. */
  const WINDOW_START: int := 75600
  const WINDOW_RANGE: int := 28800

  /** An offset rng.Int63n(range) can draw. */
  type Draw = d: int | 0 <= d < WINDOW_RANGE

  function MaintenanceTime(draw: Draw): Time { Time(WINDOW_START + draw, 0, 0) }

  function BackupTime(draw: Draw): Time { Time(WINDOW_START + draw - 3600, 0, 0) }

  function CronText(t: Time): string { PrintNat(Minute(t)) + ([' '] + (PrintNat(Hour(t)) + " * * *")) }

  function DayText(t: Time): string
    requires WallSeconds(t) >= 0
  {
    if WallDate(t).day > 1 then "wednesday" else "tuesday"
  }

  /** The parameters with every blank schedule field filled in. */
  function FillBlanks(p: Parameters, draw: Draw): Parameters {
    p.(backupSchedule := if p.backupSchedule == "" then CronText(BackupTime(draw)) else p.backupSchedule,
       timeOfDay := if p.timeOfDay == "" then PrintClock(MaintenanceTime(draw)) else p.timeOfDay,
       dayOfWeek := if p.dayOfWeek == "" then DayText(MaintenanceTime(draw)) else p.dayOfWeek)
  }

  function ScheduledComposite(raw: Raw, draw: Draw): Raw {
    match DecodeJson(raw, Composite)
    case Err(_) => raw
    case Ok(comp) => Encode(comp.(body := comp.body.(params := FillBlanks(comp.body.params, draw))))
  }

  function ScheduleOutcome(s: Store, draw: Draw): Outcome {
    Outcome(s.(composite := ScheduledComposite(s.composite, draw)),
            if DecodeJson(s.composite, Composite).Err? then Result(Fatal, NoComposite) else NORMAL)
  }

  method TransformSchedule(iof: Runtime, draw: Draw) returns (r: Result)
    requires iof.Valid()
    modifies iof.desired.Repr
    ensures iof.Valid() && fresh(iof.desired.Repr - old(iof.desired.Repr))
    ensures Outcome(iof.desired.Contents, r) == ScheduleOutcome(old(iof.desired.Contents), draw)
  {
    hide PrintClock, CronText, WallDate;
    var decoded := iof.desired.GetComposite();
    if decoded.Err? {
      return Result(Fatal, NoComposite);
    }
    var comp := decoded.value;
    var maintTime := MaintenanceTime(draw);
    var backupTime := BackupTime(draw);
    var params := comp.body.params;
    if params.backupSchedule == "" {
      params := params.(backupSchedule := CronText(backupTime));
    }
    if params.timeOfDay == "" {
      params := params.(timeOfDay := PrintClock(maintTime));
    }
    if params.dayOfWeek == "" {
      var day := "tuesday";
      if WallDate(maintTime).day > 1 {
        day := "wednesday";
      }
      params := params.(dayOfWeek := day);
    }
    iof.desired.SetComposite(comp.(body := comp.body.(params := params)));
    r := NORMAL;
  }

  // ---------- Reading the fields back ----------

  /** The time of day, in seconds, that a maintenance time HH:MM:SS names. */
  function ReadClock(s: string): Option<nat> {
    match TakeClock(s)
    case None => None
    case Some(r) => if r.rest == "" then Some(r.value) else None
  }

  /** The second of the day at which a daily cron entry "M H * * *" fires. */
  function ReadCron(s: string): Option<nat> {
    match SplitAt(s, ' ')
    case None => None
    case Some((minute, rest)) =>
      match SplitAt(rest, ' ')
      case None => None
      case Some((hour, days)) =>
        match (ParseNat(minute), ParseNat(hour)) {
          case (Some(m), Some(h)) => if days == "* * *" && m < 60 && h < 24 then Some(3600 * h + 60 * m) else None
          case _ => None
        }
  }

  lemma ReadCronOfText(t: Time)
    ensures ReadCron(CronText(t)) == Some(3600 * Hour(t) + 60 * Minute(t))
  {
    hide SplitAt, ParseNat;
    ClockFields(t);
    var m, h := PrintNat(Minute(t)), PrintNat(Hour(t));
    assert CronText(t) == m + ([' '] + (h + ([' '] + "* * *")));
    SplitAtFirst(m, ' ', h + ([' '] + "* * *"));
    SplitAtFirst(h, ' ', "* * *");
    ParsePrintNat(Minute(t));
    ParsePrintNat(Hour(t));
  }

  lemma ReadClockOfText(t: Time)
    ensures ReadClock(PrintClock(t)) == Some(WallSeconds(t) % 86400)
  {
    ClockFields(t);
    TakeClockOfPrint(Hour(t), Minute(t), Second(t), "");
    assert Pad2(Second(t)) + "" == Pad2(Second(t));
  }

  lemma WallOfUtc(unix: nat)
    ensures WallSeconds(Time(unix, 0, 0)) == unix + 86400 * 719528
    ensures WallSeconds(Time(unix, 0, 0)) % 86400 == unix % 86400
    ensures WallSeconds(Time(unix, 0, 0)) / 86400 == unix / 86400 + 719528
  {
  }

  lemma FirstDays(day: nat)
    requires day < 2
    ensures ValidDate(Date(1970, 1, day + 1)) && DayNumber(Date(1970, 1, day + 1)) == 719528 + day
  {
  }

  /** January 1st before midnight, January 2nd from midnight on. */
  lemma DayOfDraw(draw: Draw)
    ensures DayText(MaintenanceTime(draw)) == if WINDOW_START + draw < 86400 then "tuesday" else "wednesday"
  {
    hide DaysBeforeYear, DaysBeforeMonth, DateOf, WallSeconds;
    var day := if WINDOW_START + draw < 86400 then 0 else 1;
    WallOfUtc(WINDOW_START + draw);
    FirstDays(day);
    DayNumberInjective(WallDate(MaintenanceTime(draw)), Date(1970, 1, day + 1));
  }

  /** A generated maintenance time reads back to the drawn time, which lies between 21:00 and 05:00;
      a generated day is tuesday exactly before midnight. */
  lemma GeneratedMaintenance(p: Parameters, draw: Draw)
    ensures var q := FillBlanks(p, draw);
      && (p.timeOfDay == "" ==> ReadClock(q.timeOfDay) == Some((21 * 3600 + draw) % 86400) && |q.timeOfDay| == 8)
      && !(5 * 3600 <= (21 * 3600 + draw) % 86400 < 21 * 3600)
      && (p.dayOfWeek == "" ==> q.dayOfWeek == if 21 * 3600 + draw < 86400 then "tuesday" else "wednesday")
  {
    hide ReadClock, PrintClock, DayText, CronText;
    DayOfDraw(draw);
    ReadClockOfText(MaintenanceTime(draw));
    ClockLength(MaintenanceTime(draw));
    WallOfUtc(WINDOW_START + draw);
  }

  /** A generated backup fires in the minute that holds the drawn time minus one hour. */
  lemma GeneratedBackup(p: Parameters, draw: Draw)
    requires p.backupSchedule == ""
    ensures var fires := ReadCron(FillBlanks(p, draw).backupSchedule);
      && fires.Some? && fires.value % 60 == 0 && fires.value <= (20 * 3600 + draw) % 86400 < fires.value + 60
      && exists m: nat, h: nat :: m < 60 && h < 24
           && FillBlanks(p, draw).backupSchedule == PrintNat(m) + ([' '] + (PrintNat(h) + " * * *"))
  {
    var t := BackupTime(draw);
    ReadCronOfText(t);
    ClockFields(t);
    WallOfUtc(WINDOW_START + draw - 3600);
    assert FillBlanks(p, draw).backupSchedule == PrintNat(Minute(t)) + ([' '] + (PrintNat(Hour(t)) + " * * *"));
  }

  /** Every second of the eight hours from 21:00 can be drawn. */
  lemma WholeWindow(second: int) returns (draw: Draw)
    requires 21 * 3600 <= second < 29 * 3600
    ensures draw as int == second - 21 * 3600 && MaintenanceTime(draw) == Time(second, 0, 0)
  {
    draw := second - 21 * 3600;
  }

  lemma ClockLength(t: Time)
    ensures |PrintClock(t)| == 8
  {
    ClockFields(t);
    hide Pad2;
  }

  /** The run fails only without a composite, and touches nothing else. */
  lemma ScheduleReports(s: Store, draw: Draw)
    ensures var out := ScheduleOutcome(s, draw);
      && out.store == s.(composite := out.store.composite)
      && if DecodeJson(s.composite, Composite).Err? then out == Outcome(s, Result(Fatal, NoComposite))
         else out.result == Result(Normal, Success)
  {
    hide DecodeJson, FillBlanks;
  }

  /** With both blank, the daily backup fires 3600 to 3659 seconds before maintenance. */
  lemma BackupBeforeMaintenance(p: Parameters, draw: Draw)
    requires p.timeOfDay == "" && p.backupSchedule == ""
    ensures var q := FillBlanks(p, draw);
      && ReadClock(q.timeOfDay).Some? && ReadCron(q.backupSchedule).Some?
      && 3600 <= (ReadClock(q.timeOfDay).value - ReadCron(q.backupSchedule).value) % 86400 < 3660
  {
    hide ReadClock, ReadCron, FillBlanks;
    GeneratedMaintenance(p, draw);
    GeneratedBackup(p, draw);
    HourApart(WINDOW_START + draw, ReadCron(FillBlanks(p, draw).backupSchedule).value);
  }

  lemma HourApart(t: int, fires: int)
    requires 75600 <= t < 104400 && fires <= (t - 3600) % 86400 < fires + 60
    ensures 3600 <= (t % 86400 - fires) % 86400 < 3660
  {
  }

  /** What the user set is kept, nothing is left blank, no other field of the composite's Go type
      changes, fields that type does not have are lost when it is written back, and any later run,
      whatever it draws, changes nothing. */
  lemma ScheduleIsStable(raw: Raw, draw: Draw, later: Draw)
    ensures ScheduledComposite(ScheduledComposite(raw, draw), later) == ScheduledComposite(raw, draw)
    ensures DecodeJson(raw, Composite).Ok? ==>
      var before, after := DecodeJson(raw, Composite).value, DecodeJson(ScheduledComposite(raw, draw), Composite);
      && after.Ok? && ScheduledComposite(raw, draw) == Doc(after.value, "")
      && var p, q := before.body.params, after.value.body.params;
      && q.backupSchedule != "" && q.timeOfDay != "" && q.dayOfWeek != ""
      && (p.backupSchedule != "" ==> q.backupSchedule == p.backupSchedule)
      && (p.timeOfDay != "" ==> q.timeOfDay == p.timeOfDay)
      && (p.dayOfWeek != "" ==> q.dayOfWeek == p.dayOfWeek)
      && after.value == before.(body := before.body.(params :=
           p.(backupSchedule := q.backupSchedule, timeOfDay := q.timeOfDay, dayOfWeek := q.dayOfWeek)))
  {
    hide PrintClock, CronText, DayText;
    if DecodeJson(raw, Composite).Ok? {
      FilledIsNotBlank(draw);
    }
  }

  lemma FilledIsNotBlank(draw: Draw)
    ensures CronText(BackupTime(draw)) != "" && PrintClock(MaintenanceTime(draw)) != ""
        && DayText(MaintenanceTime(draw)) != ""
  {
    hide WallDate;
  }
}
