/** Calendar dates as day numbers, weekdays, and local timestamps.

    A calendar date is represented by its day number: the number of days since
    1970-01-01, which was a Thursday.  A timestamp carries the calendar date and
    the wall-clock second as experienced in that timestamp's own UTC offset, so
    two endpoints of one on-call period may use different offsets.
 */
module Calendar {

  const SecondsPerDay: int := 86400

  type SecondOfDay = s: int | 0 <= s < 86400

  datatype Weekday = Monday | Tuesday | Wednesday | Thursday | Friday | Saturday | Sunday

  /** The position in the week of a day number, 0 for Monday to 6 for Sunday;
      day 0 (1970-01-01) is a Thursday, position 3. */
  function WeekdayIndex(day: int): int
  {
    (day + 3) % 7
  }

  /** The weekday of a day number.  Thursdays are exactly the day numbers
      divisible by seven, since day 0 (1970-01-01) is a Thursday. */
  function DayOfWeek(day: int): (w: Weekday)
    ensures w == Thursday <==> day % 7 == 0
  {
    match WeekdayIndex(day)
    case 0 => Monday
    case 1 => Tuesday
    case 2 => Wednesday
    case 3 => Thursday
    case 4 => Friday
    case 5 => Saturday
    case _ => Sunday
  }

  function NextWeekday(w: Weekday): Weekday
  {
    match w
    case Monday => Tuesday
    case Tuesday => Wednesday
    case Wednesday => Thursday
    case Thursday => Friday
    case Friday => Saturday
    case Saturday => Sunday
    case Sunday => Monday
  }

  /** Consecutive day numbers fall on consecutive weekdays, so a day number is a
      calendar date and not a block of elapsed time. */
  lemma DayOfWeekAdvances(day: int)
    ensures DayOfWeek(day + 1) == NextWeekday(DayOfWeek(day))
    ensures DayOfWeek(day + 7) == DayOfWeek(day)
  {
  }

  predicate IsLeapYear(y: int)
  {
    y % 4 == 0 && (y % 100 != 0 || y % 400 == 0)
  }

  function DaysInMonth(y: int, m: int): int
    requires 1 <= m <= 12
  {
    if m == 2 then (if IsLeapYear(y) then 29 else 28)
    else if m == 4 || m == 6 || m == 9 || m == 11 then 30
    else 31
  }

  predicate ValidDate(y: int, m: int, d: int)
  {
    1 <= m <= 12 && 1 <= d <= DaysInMonth(y, m)
  }

  /** Day of the year counted from 1 March, so that the leap day is the last day
      of the (shifted) year. */
  function DayOfShiftedYear(m: int, d: int): int
    requires 1 <= m <= 12
  {
    (153 * (if m > 2 then m - 3 else m + 9) + 2) / 5 + d - 1
  }

  /** Days since 1 March of year 0 for 1 March of shifted year `sy` plus `doy`. */
  function ShiftedDays(sy: int, doy: int): int
  {
    var era := sy / 400;
    var yoe := sy - era * 400;
    era * 146097 + yoe * 365 + yoe / 4 - yoe / 100 + doy
  }

  /** The day number of a calendar date (proleptic Gregorian calendar). */
  function DaysFromCivil(y: int, m: int, d: int): int
    requires ValidDate(y, m, d)
  {
    ShiftedDays(if m <= 2 then y - 1 else y, DayOfShiftedYear(m, d)) - 719468
  }

  /** The calendar date following (y, m, d). */
  function NextDate(y: int, m: int, d: int): (r: (int, int, int))
    requires ValidDate(y, m, d)
    ensures ValidDate(r.0, r.1, r.2)
  {
    if d < DaysInMonth(y, m) then (y, m, d + 1)
    else if m < 12 then (y, m + 1, 1)
    else (y + 1, 1, 1)
  }

  /** Within one 400-year era, a year-of-era step adds 366 days exactly when the
      next year is a leap year of the era. */
  lemma YearOfEraStep(yoe: int)
    requires 0 <= yoe < 399
    ensures var k := yoe + 1;
      (k * 365 + k / 4 - k / 100) - (yoe * 365 + yoe / 4 - yoe / 100)
      == (if k % 4 == 0 && k % 100 != 0 then 366 else 365)
  {
    var k := yoe + 1;
    assert k * 365 - yoe * 365 == 365;
    assert k / 4 - yoe / 4 == (if k % 4 == 0 then 1 else 0);
    assert k / 100 - yoe / 100 == (if k % 100 == 0 then 1 else 0);
  }

  /** Adding whole eras does not change a year's leap-year residues. */
  lemma EraMultipleMod(era: int, k: int)
    ensures (era * 400 + k) % 4 == k % 4
    ensures (era * 400 + k) % 100 == k % 100
  {
    var e := era * 4;
    assert era * 400 + k == e * 100 + k;
    assert (e * 100 + k) % 100 == k % 100 by {
      var q := (e * 100 + k) / 100;
      var r := (e * 100 + k) % 100;
      assert (q - e) * 100 + r == k;
      assert k / 100 == q - e && k % 100 == r;
    }
    var f := era * 100;
    assert era * 400 + k == f * 4 + k;
    assert (f * 4 + k) % 4 == k % 4 by {
      var q := (f * 4 + k) / 4;
      var r := (f * 4 + k) % 4;
      assert (q - f) * 4 + r == k;
      assert k / 4 == q - f && k % 4 == r;
    }
  }

  /** The era and year of era of a shifted year written as `era * 400 + yoe`. */
  lemma EraOf(era: int, yoe: int)
    requires 0 <= yoe < 400
    ensures ShiftedDays(era * 400 + yoe, 0) == era * 146097 + yoe * 365 + yoe / 4 - yoe / 100
    ensures (era * 400 + yoe) % 400 == yoe
  {
    var sy := era * 400 + yoe;
    var q, r := sy / 400, sy % 400;
    assert (q - era) * 400 + r == yoe;
    assert q == era && r == yoe;
  }

  /** The length of the shifted year `yoe` of an era. */
  lemma YearLengthInEra(era: int, yoe: int)
    requires 0 <= yoe < 400
    ensures var sy := era * 400 + yoe;
      ShiftedDays(sy + 1, 0) - ShiftedDays(sy, 0) == (if IsLeapYear(sy + 1) then 366 else 365)
  {
    EraOf(era, yoe);
    if yoe == 399 {
      EraOf(era + 1, 0);
      EraMultipleMod(era + 1, 0);
      assert era * 400 + yoe + 1 == (era + 1) * 400 + 0;
    } else {
      EraOf(era, yoe + 1);
      YearOfEraStep(yoe);
      EraMultipleMod(era, yoe + 1);
    }
  }

  /** One shifted year (1 March to the last day of February) has 366 days when
      the February in it is a leap February, and 365 otherwise. */
  lemma ShiftedYearLength(sy: int)
    ensures ShiftedDays(sy + 1, 0) - ShiftedDays(sy, 0) == (if IsLeapYear(sy + 1) then 366 else 365)
  {
    var era := sy / 400;
    var yoe := sy % 400;
    assert sy == era * 400 + yoe;
    YearLengthInEra(era, yoe);
  }

  /** The numbering has no gaps or repeats: the day after a date, including across
      month and year ends, has the next day number. */
  lemma {:induction false} DaysFromCivilNext(y: int, m: int, d: int)
    requires ValidDate(y, m, d)
    ensures var n := NextDate(y, m, d); DaysFromCivil(n.0, n.1, n.2) == DaysFromCivil(y, m, d) + 1
  {
    var sy := if m <= 2 then y - 1 else y;
    var n := NextDate(y, m, d);
    ShiftedDaysOffset(sy, DayOfShiftedYear(m, d));
    if d < DaysInMonth(y, m) {
      ShiftedDaysOffset(sy, DayOfShiftedYear(m, d + 1));
    } else if m == 2 {
      assert n == (y, 3, 1);
      ShiftedYearLength(y - 1);
      ShiftedDaysOffset(y, 0);
    } else if m < 12 {
      assert n == (y, m + 1, 1);
      MonthEndStep(y, m);
      ShiftedDaysOffset(sy, DayOfShiftedYear(m + 1, 1));
    } else {
      assert n == (y + 1, 1, 1);
      ShiftedDaysOffset(y, DayOfShiftedYear(1, 1));
    }
  }

  lemma ShiftedDaysOffset(sy: int, doy: int)
    ensures ShiftedDays(sy, doy) == ShiftedDays(sy, 0) + doy
  {
  }

  /** In every month other than February the first of the next month follows the
      last day of this one within the same shifted year. */
  lemma MonthEndStep(y: int, m: int)
    requires 1 <= m < 12 && m != 2
    ensures DayOfShiftedYear(m + 1, 1) == DayOfShiftedYear(m, DaysInMonth(y, m)) + 1
  {
  }

  /** The anchor the weekday calculation rests on: 1 August 2024 is a Thursday. */
  lemma WeekdayAnchor()
    ensures DaysFromCivil(1970, 1, 1) == 0
    ensures DaysFromCivil(2024, 8, 1) == 19936
    ensures DayOfWeek(DaysFromCivil(2024, 8, 1)) == Thursday
  {
  }

  /** A timestamp as experienced in its own UTC offset: the local calendar date and
      the local wall-clock second of that date. */
  datatype Timestamp = Timestamp(date: int, secondOfDay: SecondOfDay)

  /** The local timestamp of an instant (seconds since 1970-01-01T00:00Z) observed
      at a UTC offset given in seconds. */
  function FromInstant(epochSeconds: int, offsetSeconds: int): (t: Timestamp)
    ensures t.date * SecondsPerDay + t.secondOfDay == epochSeconds + offsetSeconds
  {
    var local := epochSeconds + offsetSeconds;
    Timestamp(local / SecondsPerDay, local % SecondsPerDay)
  }
}
