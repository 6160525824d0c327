/** A person on call: an identity, a display name and the periods they covered.

    Periods are kept in arrival order; later periods are appended, never merged
    or de-duplicated, so a date covered by two periods is counted twice.
 */
module User {
  import opened Period

  datatype OnCallUser = OnCallUser(id: string, name: string, onCallPeriods: seq<OnCallPeriod>) {
    /** Appends further periods (found for the same identity elsewhere): the
        identity and name stay, the earlier periods keep their places and the
        new ones follow them in the order given. */
    function AddOnCallPeriods(periods: seq<OnCallPeriod>): (r: OnCallUser)
      ensures r.id == id && r.name == name
      ensures |r.onCallPeriods| == |onCallPeriods| + |periods|
      ensures r.onCallPeriods[..|onCallPeriods|] == onCallPeriods
      ensures r.onCallPeriods[|onCallPeriods|..] == periods
    {
      this.(onCallPeriods := onCallPeriods + periods)
    }

    function TotalCounts(): DayCounts
    {
      SumCounts(onCallPeriods)
    }

    function GetTotalOohWeekDays(): nat
    {
      TotalCounts().weekDays
    }

    function GetTotalOohWeekendDays(): nat
    {
      TotalCounts().weekendDays
    }
  }

  /** The counts of a sequence of periods, added period by period: no days
      for no periods, and never less than any single period contributes. */
  function SumCounts(periods: seq<OnCallPeriod>): (r: DayCounts)
    ensures periods == [] ==> r == NoDays
    ensures forall i :: 0 <= i < |periods| ==>
      periods[i].NumberOfOohWeekDays() <= r.weekDays && periods[i].NumberOfOohWeekendDays() <= r.weekendDays
  {
    if periods == [] then NoDays
    else
      var first := periods[0].Counts();
      var rest := SumCounts(periods[1..]);
      DayCounts(first.weekDays + rest.weekDays, first.weekendDays + rest.weekendDays)
  }

  /** Totals are additive over concatenation of period sequences. */
  lemma {:induction false} SumCountsAppend(ps: seq<OnCallPeriod>, qs: seq<OnCallPeriod>)
    ensures SumCounts(ps + qs).weekDays == SumCounts(ps).weekDays + SumCounts(qs).weekDays
    ensures SumCounts(ps + qs).weekendDays == SumCounts(ps).weekendDays + SumCounts(qs).weekendDays
  {
    if ps == [] {
      assert ps + qs == qs;
    } else {
      assert (ps + qs)[0] == ps[0];
      assert (ps + qs)[1..] == ps[1..] + qs;
      SumCountsAppend(ps[1..], qs);
    }
  }

  /** Adding periods keeps the identity, the name and the earlier periods (in
      order), and raises each total by exactly the counts of the added periods. */
  lemma AddOnCallPeriodsTotals(u: OnCallUser, periods: seq<OnCallPeriod>)
    ensures u.AddOnCallPeriods(periods).id == u.id
    ensures u.AddOnCallPeriods(periods).name == u.name
    ensures |u.AddOnCallPeriods(periods).onCallPeriods| == |u.onCallPeriods| + |periods|
    ensures u.AddOnCallPeriods(periods).onCallPeriods[..|u.onCallPeriods|] == u.onCallPeriods
    ensures u.AddOnCallPeriods(periods).onCallPeriods[|u.onCallPeriods|..] == periods
    ensures u.AddOnCallPeriods(periods).GetTotalOohWeekDays() == u.GetTotalOohWeekDays() + SumCounts(periods).weekDays
    ensures u.AddOnCallPeriods(periods).GetTotalOohWeekendDays() == u.GetTotalOohWeekendDays() + SumCounts(periods).weekendDays
  {
    SumCountsAppend(u.onCallPeriods, periods);
  }

  /** A user holding a single period has exactly that period's counts. */
  lemma SinglePeriodTotals(u: OnCallUser)
    requires |u.onCallPeriods| == 1
    ensures u.GetTotalOohWeekDays() == u.onCallPeriods[0].NumberOfOohWeekDays()
    ensures u.GetTotalOohWeekendDays() == u.onCallPeriods[0].NumberOfOohWeekendDays()
  {
    assert u.onCallPeriods[1..] == [];
    assert SumCounts(u.onCallPeriods[1..]) == NoDays;
  }

  /** No overlap correction: listing the same periods twice doubles the totals. */
  lemma RepeatedPeriodsCountTwice(ps: seq<OnCallPeriod>)
    ensures SumCounts(ps + ps).weekDays == 2 * SumCounts(ps).weekDays
    ensures SumCounts(ps + ps).weekendDays == 2 * SumCounts(ps).weekendDays
  {
    SumCountsAppend(ps, ps);
  }
}
