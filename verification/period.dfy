/** One on-call period and the classification of the calendar dates it covers.

    A period covers every calendar date `d` with `date(since) <= d < date(until)`,
    each endpoint's date taken in its own offset.  The date of `until` is never
    covered, whatever its time of day, and a period whose endpoints share a date
    covers nothing.  Monday to Thursday are out-of-hours weekdays; Friday,
    Saturday and Sunday are weekend days.
 */
module Period {
  import opened Calendar

  /** The number of covered weekdays (Mon-Thu) and weekend days (Fri-Sun). */
  datatype DayCounts = DayCounts(weekDays: nat, weekendDays: nat) {
    function Total(): nat
    {
      weekDays + weekendDays
    }
  }

  const NoDays := DayCounts(0, 0)

  /** Friday, Saturday and Sunday, positions 4 to 6 of the week, are the
      weekend days. */
  predicate IsWeekendDay(date: int)
  {
    WeekdayIndex(date) >= 4
  }

  /** The weekend bucket is exactly Friday, Saturday and Sunday; every other
      weekday (Monday to Thursday) goes to the weekday bucket. */
  lemma WeekendDaysAreFridayToSunday(date: int)
    ensures IsWeekendDay(date) <==> DayOfWeek(date) in {Friday, Saturday, Sunday}
    ensures !IsWeekendDay(date) <==> DayOfWeek(date) in {Monday, Tuesday, Wednesday, Thursday}
  {
  }

  /** The covered Monday-to-Thursday dates of the half-open range [first, last). */
  ghost function WeekdayDates(first: int, last: int): set<int>
  {
    set d | first <= d < last && !IsWeekendDay(d)
  }

  /** The covered Friday-to-Sunday dates of the half-open range [first, last). */
  ghost function WeekendDates(first: int, last: int): set<int>
  {
    set d | first <= d < last && IsWeekendDay(d)
  }

  /** Classifies the dates first, first + 1, ..., last - 1 one by one. */
  function Classify(first: int, last: int): DayCounts
    decreases last - first
  {
    if last <= first then NoDays
    else
      var rest := Classify(first + 1, last);
      if IsWeekendDay(first) then DayCounts(rest.weekDays, rest.weekendDays + 1)
      else DayCounts(rest.weekDays + 1, rest.weekendDays)
  }

  /** The day-by-day classification counts exactly the Monday-to-Thursday and the
      Friday-to-Sunday dates of the range. */
  lemma {:induction false} ClassifyCountsDates(first: int, last: int)
    ensures Classify(first, last).weekDays == |WeekdayDates(first, last)|
    ensures Classify(first, last).weekendDays == |WeekendDates(first, last)|
    decreases last - first
  {
    if last <= first {
      assert WeekdayDates(first, last) == {};
      assert WeekendDates(first, last) == {};
    } else {
      ClassifyCountsDates(first + 1, last);
      DatesStep(first, last);
    }
  }

  /** Removing the first date of a range removes it from exactly one bucket. */
  lemma DatesStep(first: int, last: int)
    requires first < last
    ensures IsWeekendDay(first) ==>
      |WeekendDates(first, last)| == |WeekendDates(first + 1, last)| + 1
      && WeekdayDates(first, last) == WeekdayDates(first + 1, last)
    ensures !IsWeekendDay(first) ==>
      |WeekdayDates(first, last)| == |WeekdayDates(first + 1, last)| + 1
      && WeekendDates(first, last) == WeekendDates(first + 1, last)
  {
    var weekdays, weekends := WeekdayDates(first + 1, last), WeekendDates(first + 1, last);
    assert first !in weekdays && first !in weekends;
    if IsWeekendDay(first) {
      assert WeekendDates(first, last) == {first} + weekends;
    } else {
      assert WeekdayDates(first, last) == {first} + weekdays;
    }
  }

  /** One on-call period between two local timestamps.  Constructing it keeps
      `since` and `until` as given; its counts are derived from their dates. */
  datatype OnCallPeriod = OnCallPeriod(since: Timestamp, until: Timestamp) {
    function Counts(): DayCounts
    {
      Classify(since.date, until.date)
    }

    /** The number of Monday-to-Thursday dates the period covers. */
    function NumberOfOohWeekDays(): (n: nat)
      ensures n == |WeekdayDates(since.date, until.date)|
    {
      ClassifyCountsDates(since.date, until.date);
      Counts().weekDays
    }

    /** The number of Friday-to-Sunday dates the period covers. */
    function NumberOfOohWeekendDays(): (n: nat)
      ensures n == |WeekendDates(since.date, until.date)|
    {
      ClassifyCountsDates(since.date, until.date);
      Counts().weekendDays
    }
  }

  /** Every covered date is counted exactly once: the two counts add up to the
      number of dates in [date(since), date(until)), and to zero when the until
      date does not come after the since date. */
  lemma {:induction false} CountConservation(first: int, last: int)
    ensures Classify(first, last).Total() == if first < last then last - first else 0
    decreases last - first
  {
    if first < last {
      CountConservation(first + 1, last);
    }
  }

  /** A period whose endpoints fall on the same date (or whose until date is not
      after its since date) counts no days at all, whatever the times of day. */
  lemma EmptyPeriod(p: OnCallPeriod)
    requires p.until.date <= p.since.date
    ensures p.NumberOfOohWeekDays() == 0 && p.NumberOfOohWeekendDays() == 0
  {
  }

  /** Only the dates of the endpoints matter: changing either time of day leaves
      the counts unchanged. */
  lemma TimeOfDayIrrelevant(p: OnCallPeriod, q: OnCallPeriod)
    requires p.since.date == q.since.date && p.until.date == q.until.date
    ensures p.Counts() == q.Counts()
  {
  }

  /** Splitting a range of dates at any date in between splits the counts. */
  lemma {:induction false} ClassifySplit(first: int, mid: int, last: int)
    requires first <= mid <= last
    ensures Classify(first, last).weekDays == Classify(first, mid).weekDays + Classify(mid, last).weekDays
    ensures Classify(first, last).weekendDays == Classify(first, mid).weekendDays + Classify(mid, last).weekendDays
    decreases mid - first
  {
    if first < mid {
      ClassifySplit(first + 1, mid, last);
    }
  }

  /** Adding one date to the end of a range adds one weekday or one weekend day
      according to the weekday of the date added. */
  lemma {:induction false} ClassifyExtend(first: int, last: int)
    requires first <= last
    ensures Classify(first, last + 1).weekDays == Classify(first, last).weekDays + (if IsWeekendDay(last) then 0 else 1)
    ensures Classify(first, last + 1).weekendDays == Classify(first, last).weekendDays + (if IsWeekendDay(last) then 1 else 0)
    decreases last - first
  {
    if first < last {
      ClassifyExtend(first + 1, last);
    }
  }

  /** Moving a week-long range one date later drops a date and adds one on the
      same weekday, so the counts do not change. */
  lemma ShiftWeek(first: int)
    ensures Classify(first + 1, first + 8) == Classify(first, first + 7)
  {
    assert IsWeekendDay(first + 7) == IsWeekendDay(first);
    ClassifyExtend(first, first + 7);
    ClassifyExtend(first + 1, first + 7);
  }

  /** The week of 1970-01-01 (Thursday to Wednesday). */
  lemma FirstWeek()
    ensures Classify(0, 7) == DayCounts(4, 3)
  {
  }

  /** Any seven consecutive dates hold four weekdays (Mon-Thu) and three weekend
      days (Fri-Sun). */
  lemma {:induction false} FullWeek(first: int)
    ensures Classify(first, first + 7) == DayCounts(4, 3)
    decreases if first < 0 then -first else first
  {
    if first == 0 {
      FirstWeek();
    } else if first > 0 {
      FullWeek(first - 1);
      ShiftWeek(first - 1);
      assert Classify(first, first + 7) == Classify(first - 1, first + 6);
    } else {
      FullWeek(first + 1);
      ShiftWeek(first);
      assert Classify(first, first + 7) == Classify(first + 1, first + 8);
    }
  }

  /** Whole weeks contribute four weekdays and three weekend days each. */
  lemma {:induction false} WholeWeeks(first: int, weeks: nat)
    ensures Classify(first, first + 7 * weeks) == DayCounts(4 * weeks, 3 * weeks)
  {
    if weeks > 0 {
      WholeWeeks(first, weeks - 1);
      FullWeek(first + 7 * (weeks - 1));
      ClassifySplit(first, first + 7 * (weeks - 1), first + 7 * weeks);
    }
  }
}
