/** The calculator's required behaviour on concrete on-call periods.

    All timestamps are local times at UTC+01:00, written in that offset.
 */
module Scenarios {
  import opened Calendar
  import opened Period
  import opened User
  import opened Payments

  // Seconds of the day for the clock times the scenarios use.
  const Midnight: SecondOfDay := 0
  const TenAm: SecondOfDay := 10 * 3600
  const HalfPastFourPm: SecondOfDay := 16 * 3600 + 30 * 60
  const HalfPastSixPm: SecondOfDay := 18 * 3600 + 30 * 60
  const EightPm: SecondOfDay := 20 * 3600
  const LastSecond: SecondOfDay := 23 * 3600 + 59 * 60 + 59

  // Day numbers of the dates the scenarios use, in 2024; ScenarioDates ties
  // each to its calendar date.
  const Aug1 := 19936
  const Aug6 := 19941
  const Aug12 := 19947
  const Aug15 := 19950
  const Aug16 := 19951
  const Aug21 := 19956
  const Aug28 := 19963
  const Aug31 := 19966
  const Sep1 := 19967
  const Sep2 := 19968
  const Sep20 := 19986
  const Sep23 := 19989

  function SoleUser(p: OnCallPeriod): OnCallUser
  {
    OnCallUser("1", "John Doe", [p])
  }

  /** The day numbers of the dates the scenarios use (1 August 2024 is a
      Thursday). */
  lemma ScenarioDates()
    ensures DaysFromCivil(2024, 8, 1) == Aug1
    ensures DaysFromCivil(2024, 8, 6) == Aug6
    ensures DaysFromCivil(2024, 8, 12) == Aug12
    ensures DaysFromCivil(2024, 8, 15) == Aug15
    ensures DaysFromCivil(2024, 8, 16) == Aug16
    ensures DaysFromCivil(2024, 8, 21) == Aug21
    ensures DaysFromCivil(2024, 8, 28) == Aug28
    ensures DaysFromCivil(2024, 8, 31) == Aug31
    ensures DaysFromCivil(2024, 9, 1) == Sep1
    ensures DaysFromCivil(2024, 9, 2) == Sep2
    ensures DaysFromCivil(2024, 9, 20) == Sep20
    ensures DaysFromCivil(2024, 9, 23) == Sep23
  {
  }

  /** A two-hour evening period on one date counts no days. */
  lemma SameDayEvening()
    ensures var p := OnCallPeriod(Timestamp(Sep20, HalfPastFourPm),
                                  Timestamp(Sep20, HalfPastSixPm));
      p.NumberOfOohWeekDays() == 0 && p.NumberOfOohWeekendDays() == 0
  {
  }

  /** Friday 20:00 to Monday 10:00 covers Friday, Saturday and Sunday. */
  lemma FridayEveningToMonday()
    ensures var p := OnCallPeriod(Timestamp(Sep20, EightPm), Timestamp(Sep23, TenAm));
      p.NumberOfOohWeekDays() == 0 && p.NumberOfOohWeekendDays() == 3
  {
    assert Classify(19986, 19989) == DayCounts(0, 3);
  }

  /** Wednesday 28 August to Monday 2 September, across the month end, covers
      two weekdays and three weekend days and pays 325. */
  lemma AcrossMonthEnd()
    ensures var p := OnCallPeriod(Timestamp(Aug28, TenAm), Timestamp(Sep2, TenAm));
      && p.NumberOfOohWeekDays() == 2 && p.NumberOfOohWeekendDays() == 3
      && CalculateOnCallPayment(StandardRates, SoleUser(p)) == 325
  {
    assert Classify(19963, 19968) == DayCounts(2, 3);
  }

  /** 1 August to 12 August covers five weekdays and six weekend days and pays
      700, whether it starts at midnight or at 10:00. */
  lemma FirstToTwelfth()
    ensures var p := OnCallPeriod(Timestamp(Aug1, Midnight), Timestamp(Aug12, TenAm));
      && p.NumberOfOohWeekDays() == 5 && p.NumberOfOohWeekendDays() == 6
      && CalculateOnCallPayment(StandardRates, SoleUser(p)) == 700
    ensures var p := OnCallPeriod(Timestamp(Aug1, TenAm), Timestamp(Aug12, TenAm));
      && p.NumberOfOohWeekDays() == 5 && p.NumberOfOohWeekendDays() == 6
      && CalculateOnCallPayment(StandardRates, SoleUser(p)) == 700
  {
    assert Classify(19936, 19947) == DayCounts(5, 6);
  }

  /** The date of `until` is not covered even at 23:59:59: 28 August 10:00 to
      31 August 23:59:59 covers 28, 29 and 30 August and pays 175. */
  lemma UntilDateExcluded()
    ensures var p := OnCallPeriod(Timestamp(Aug28, TenAm), Timestamp(Aug31, LastSecond));
      && p.NumberOfOohWeekDays() == 2 && p.NumberOfOohWeekendDays() == 1
      && CalculateOnCallPayment(StandardRates, SoleUser(p)) == 175
  {
    assert Classify(19963, 19966) == DayCounts(2, 1);
  }

  /** The four users of the monthly report example. */
  function Yw(): OnCallUser
  {
    OnCallUser("1PF7DNAV", "YW Oncall", [
      OnCallPeriod(Timestamp(Aug1, Midnight), Timestamp(Aug6, TenAm)),
      OnCallPeriod(Timestamp(Aug28, TenAm), Timestamp(Sep1, Midnight))])
  }

  function Sk(): OnCallUser
  {
    OnCallUser("PGO3DTM", "SK Oncall", [
      OnCallPeriod(Timestamp(Aug6, TenAm), Timestamp(Aug15, TenAm)),
      OnCallPeriod(Timestamp(Aug16, TenAm), Timestamp(Aug21, TenAm))])
  }

  function Eg(): OnCallUser
  {
    OnCallUser("PINI77A", "EG Oncall", [
      OnCallPeriod(Timestamp(Aug15, Midnight), Timestamp(Aug16, TenAm))])
  }

  function Ce(): OnCallUser
  {
    OnCallUser("PJXZDBT", "CE Oncall", [
      OnCallPeriod(Timestamp(Aug21, TenAm), Timestamp(Aug28, TenAm))])
  }

  /** YW covers four weekdays and five weekend days over two periods. */
  lemma YwTotals()
    ensures Yw().TotalCounts() == DayCounts(4, 5) && CalculateOnCallPayment(StandardRates, Yw()) == 575
  {
    assert Classify(19936, 19941) == DayCounts(2, 3);
    assert Classify(19963, 19967) == DayCounts(2, 2);
  }

  /** SK covers eight weekdays and six weekend days over two periods. */
  lemma SkTotals()
    ensures Sk().TotalCounts() == DayCounts(8, 6) && CalculateOnCallPayment(StandardRates, Sk()) == 850
  {
    assert Classify(19951, 19956) == DayCounts(2, 3);
    assert Classify(19941, 19950) == DayCounts(6, 3) by {
      FullWeek(19941);
      ClassifySplit(19941, 19948, 19950);
      assert Classify(19948, 19950) == DayCounts(2, 0);
    }
  }

  /** EG covers one weekday. */
  lemma EgTotals()
    ensures Eg().TotalCounts() == DayCounts(1, 0) && CalculateOnCallPayment(StandardRates, Eg()) == 50
  {
    assert Classify(19950, 19951) == DayCounts(1, 0);
  }

  /** CE covers four weekdays and three weekend days. */
  lemma CeTotals()
    ensures Ce().TotalCounts() == DayCounts(4, 3) && CalculateOnCallPayment(StandardRates, Ce()) == 425
  {
    assert Classify(19956, 19963) == DayCounts(4, 3);
  }

  function FourUsers(): seq<OnCallUser>
  {
    [Yw(), Sk(), Eg(), Ce()]
  }

  /** The four users have four different ids. */
  lemma FourUsersIds()
    ensures DistinctIds(FourUsers())
    ensures Ids(FourUsers()) == {"1PF7DNAV", "PGO3DTM", "PINI77A", "PJXZDBT"}
  {
  }

  /** Four users covering August pay 575, 850, 50 and 425, one payment each. */
  lemma FourUsersPayments()
    ensures var payments := CalculateOnCallPayments(StandardRates, FourUsers());
      && payments.Keys == {"1PF7DNAV", "PGO3DTM", "PINI77A", "PJXZDBT"}
      && payments["1PF7DNAV"] == 575 && payments["PGO3DTM"] == 850
      && payments["PINI77A"] == 50 && payments["PJXZDBT"] == 425
  {
    var users := FourUsers();
    FourUsersIds();
    DistinctUsersPayments(StandardRates, users);
    var payments := CalculateOnCallPayments(StandardRates, users);
    YwTotals();
    assert payments[users[0].id] == 575;
    SkTotals();
    assert payments[users[1].id] == 850;
    EgTotals();
    assert payments[users[2].id] == 50;
    CeTotals();
    assert payments[users[3].id] == 425;
  }

  /** The audit of the first two users pairs each with the same pay, and the
      record exposes the first user's day counts. */
  lemma TwoUsersAudit()
    ensures var audit := GetAuditableOnCallPaymentRecords(StandardRates, [Yw(), Sk()]);
      && "1PF7DNAV" in audit && "PGO3DTM" in audit
      && audit["1PF7DNAV"].onCallUser.GetTotalOohWeekDays() == 4
      && audit["1PF7DNAV"].onCallUser.GetTotalOohWeekendDays() == 5
      && audit["1PF7DNAV"].totalCompensation == 575
      && audit["PGO3DTM"].totalCompensation == 850
  {
    var users := [Yw(), Sk()];
    assert IsLastWithId(users, 0) && IsLastWithId(users, 1);
    YwTotals();
    SkTotals();
  }

  /** Dates must be read in each endpoint's own offset: 2024-08-01T00:00+01:00
      is still 31 July in UTC, and counting UTC dates would add that Wednesday,
      giving six weekdays where five are required. */
  lemma OwnOffsetDates()
    ensures var since := 1722466800;  // 2024-08-01T00:00:00+01:00
      var until := 1723453200;          // 2024-08-12T10:00:00+01:00
      && OnCallPeriod(FromInstant(since, 3600), FromInstant(until, 3600)).NumberOfOohWeekDays() == 5
      && OnCallPeriod(FromInstant(since, 0), FromInstant(until, 0)).NumberOfOohWeekDays() == 6
  {
    assert FromInstant(1722466800, 3600).date == 19936 && FromInstant(1722466800, 0).date == 19935;
    assert FromInstant(1723453200, 3600).date == 19947 && FromInstant(1723453200, 0).date == 19947;
    assert Classify(19936, 19947).weekDays == 5;
    assert Classify(19935, 19947).weekDays == 6;
  }
}
