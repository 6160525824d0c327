/** Compensation for on-call users and the auditable payment records.

    Pay is a fixed rate per covered weekday (Mon-Thu) plus a fixed rate per
    covered weekend day (Fri-Sun).  The rates are passed in as configuration;
    the calculator the tests exercise uses 50 and 75.  Results are keyed by user
    id; when two users in the input share an id the later one wins.
 */
module Payments {
  import opened Period
  import opened User

  datatype Rates = Rates(weekDay: nat, weekendDay: nat)

  /** The rates of the on-call payments calculator. */
  const StandardRates := Rates(50, 75)

  /** Any rates that reproduce the single-period payments the calculator is
      required to produce (5 weekdays and 6 weekend days pay 700; 2 weekdays and
      1 weekend day pay 175) are exactly 50 and 75. */
  lemma RatesDeterminedByPayments(rates: Rates)
    requires 5 * rates.weekDay + 6 * rates.weekendDay == 700
    requires 2 * rates.weekDay + 1 * rates.weekendDay == 175
    ensures rates == StandardRates
  {
  }

  function PayFor(rates: Rates, c: DayCounts): nat
  {
    c.weekDays * rates.weekDay + c.weekendDays * rates.weekendDay
  }

  /** The compensation of one user: the weekday rate for each of the user's
      weekdays plus the weekend rate for each weekend day, which is also what
      paying each of the user's periods separately adds up to. */
  function CalculateOnCallPayment(rates: Rates, user: OnCallUser): (pay: nat)
    ensures pay == user.GetTotalOohWeekDays() * rates.weekDay + user.GetTotalOohWeekendDays() * rates.weekendDay
    ensures pay == SumPeriodPayments(rates, user.onCallPeriods)
  {
    PaymentIsSumOfPeriodPayments(rates, user.onCallPeriods);
    PayFor(rates, user.TotalCounts())
  }

  /** The payments of each period separately, added up. */
  function SumPeriodPayments(rates: Rates, periods: seq<OnCallPeriod>): nat
  {
    if periods == [] then 0 else PayFor(rates, periods[0].Counts()) + SumPeriodPayments(rates, periods[1..])
  }

  /** Paying the totals is the same as paying each period and adding up. */
  lemma {:induction false} PaymentIsSumOfPeriodPayments(rates: Rates, periods: seq<OnCallPeriod>)
    ensures PayFor(rates, SumCounts(periods)) == SumPeriodPayments(rates, periods)
  {
    if periods != [] {
      PaymentIsSumOfPeriodPayments(rates, periods[1..]);
      var c, rest := periods[0].Counts(), SumCounts(periods[1..]);
      assert SumCounts(periods) == DayCounts(c.weekDays + rest.weekDays, c.weekendDays + rest.weekendDays);
      PayForPlus(rates, c, rest);
    }
  }

  /** Adding periods to a user adds exactly their payment to the user's pay. */
  lemma AddedPeriodsAddPayment(rates: Rates, u: OnCallUser, periods: seq<OnCallPeriod>)
    ensures CalculateOnCallPayment(rates, u.AddOnCallPeriods(periods))
         == CalculateOnCallPayment(rates, u) + SumPeriodPayments(rates, periods)
  {
    AddOnCallPeriodsTotals(u, periods);
    PaymentIsSumOfPeriodPayments(rates, periods);
    var a, b := u.TotalCounts(), SumCounts(periods);
    assert u.AddOnCallPeriods(periods).TotalCounts() == DayCounts(a.weekDays + b.weekDays, a.weekendDays + b.weekendDays);
    PayForPlus(rates, a, b);
  }

  /** Pay is linear in the counts. */
  lemma PayForPlus(rates: Rates, a: DayCounts, b: DayCounts)
    ensures PayFor(rates, DayCounts(a.weekDays + b.weekDays, a.weekendDays + b.weekendDays))
         == PayFor(rates, a) + PayFor(rates, b)
  {
    Distribute(a.weekDays, b.weekDays, rates.weekDay);
    Distribute(a.weekendDays, b.weekendDays, rates.weekendDay);
  }

  lemma Distribute(x: nat, y: nat, rate: nat)
    ensures (x + y) * rate == x * rate + y * rate
  {
  }

  /** The ids of a sequence of users. */
  function Ids(users: seq<OnCallUser>): set<string>
  {
    set u | u in users :: u.id
  }

  /** No later user in the sequence has the same id as the user at index i. */
  ghost predicate IsLastWithId(users: seq<OnCallUser>, i: int)
    requires 0 <= i < |users|
  {
    forall j :: i < j < |users| ==> users[j].id != users[i].id
  }

  ghost predicate DistinctIds(users: seq<OnCallUser>)
  {
    forall i, j :: 0 <= i < j < |users| ==> users[i].id != users[j].id
  }

  lemma LastWithIdInPrefix(users: seq<OnCallUser>, i: int)
    requires 0 <= i < |users| - 1 && IsLastWithId(users, i)
    ensures users[i].id != users[|users| - 1].id
    ensures IsLastWithId(users[..|users| - 1], i)
  {
  }

  lemma IdsOfPrefix(users: seq<OnCallUser>)
    requires users != []
    ensures Ids(users) == Ids(users[..|users| - 1]) + {users[|users| - 1].id}
  {
    var init := users[..|users| - 1];
    assert users == init + [users[|users| - 1]];
    forall k | k in Ids(users)
      ensures k in Ids(init) + {users[|users| - 1].id}
    {
      var u :| u in users && u.id == k;
      var i :| 0 <= i < |users| && users[i] == u;
      if i < |users| - 1 {
        assert init[i] == u;
      }
    }
  }

  /** The mapping from each user's id to that user's pay; for a repeated id the
      last user with it wins. */
  function CalculateOnCallPayments(rates: Rates, users: seq<OnCallUser>): (payments: map<string, nat>)
    ensures payments.Keys == Ids(users)
    ensures forall i :: 0 <= i < |users| && IsLastWithId(users, i) ==>
      payments[users[i].id] == CalculateOnCallPayment(rates, users[i])
    decreases |users|
  {
    if users == [] then map[]
    else
      var init, last := users[..|users| - 1], users[|users| - 1];
      var earlier := CalculateOnCallPayments(rates, init);
      assert users == init + [last];
      PaymentsStep(rates, init, last, earlier);
      earlier[last.id := CalculateOnCallPayment(rates, last)]
  }

  /** Recording one more user's pay over the payments of the users before it
      keeps the payments' properties. */
  lemma PaymentsStep(rates: Rates, init: seq<OnCallUser>, last: OnCallUser, earlier: map<string, nat>)
    requires earlier.Keys == Ids(init)
    requires forall i :: 0 <= i < |init| && IsLastWithId(init, i) ==>
      earlier[init[i].id] == CalculateOnCallPayment(rates, init[i])
    ensures var users := init + [last];
      var payments := earlier[last.id := CalculateOnCallPayment(rates, last)];
      && payments.Keys == Ids(users)
      && (forall i :: 0 <= i < |users| && IsLastWithId(users, i) ==>
           payments[users[i].id] == CalculateOnCallPayment(rates, users[i]))
  {
    var users := init + [last];
    var payments := earlier[last.id := CalculateOnCallPayment(rates, last)];
    assert users[..|users| - 1] == init;
    IdsOfPrefix(users);
    forall i | 0 <= i < |users| && IsLastWithId(users, i)
      ensures payments[users[i].id] == CalculateOnCallPayment(rates, users[i])
    {
      if i < |init| {
        LastWithIdInPrefix(users, i);
        assert users[i] == init[i];
      }
    }
  }

  /** One record of the audit: the user together with the user's pay. */
  datatype AuditRecord = AuditRecord(onCallUser: OnCallUser, totalCompensation: nat)

  /** The audit records keyed by user id; for a repeated id the last user wins. */
  function GetAuditableOnCallPaymentRecords(rates: Rates, users: seq<OnCallUser>): (records: map<string, AuditRecord>)
    ensures records.Keys == Ids(users)
    ensures forall k :: k in records ==>
      records[k].onCallUser.id == k
      && records[k].totalCompensation == CalculateOnCallPayment(rates, records[k].onCallUser)
    ensures forall i :: 0 <= i < |users| && IsLastWithId(users, i) ==> records[users[i].id].onCallUser == users[i]
    decreases |users|
  {
    if users == [] then map[]
    else
      var init, last := users[..|users| - 1], users[|users| - 1];
      var earlier := GetAuditableOnCallPaymentRecords(rates, init);
      assert users == init + [last];
      AuditStep(rates, init, last, earlier);
      earlier[last.id := AuditRecord(last, CalculateOnCallPayment(rates, last))]
  }

  /** Recording one more user over the audit of the users before it keeps the
      audit's properties. */
  lemma AuditStep(rates: Rates, init: seq<OnCallUser>, last: OnCallUser, earlier: map<string, AuditRecord>)
    requires earlier.Keys == Ids(init)
    requires forall k :: k in earlier ==>
      earlier[k].onCallUser.id == k
      && earlier[k].totalCompensation == CalculateOnCallPayment(rates, earlier[k].onCallUser)
    requires forall i :: 0 <= i < |init| && IsLastWithId(init, i) ==> earlier[init[i].id].onCallUser == init[i]
    ensures var users := init + [last];
      var records := earlier[last.id := AuditRecord(last, CalculateOnCallPayment(rates, last))];
      && records.Keys == Ids(users)
      && (forall k :: k in records ==>
           records[k].onCallUser.id == k
           && records[k].totalCompensation == CalculateOnCallPayment(rates, records[k].onCallUser))
      && (forall i :: 0 <= i < |users| && IsLastWithId(users, i) ==> records[users[i].id].onCallUser == users[i])
  {
    var users := init + [last];
    var records := earlier[last.id := AuditRecord(last, CalculateOnCallPayment(rates, last))];
    assert users[..|users| - 1] == init;
    IdsOfPrefix(users);
    forall i | 0 <= i < |users| && IsLastWithId(users, i)
      ensures records[users[i].id].onCallUser == users[i]
    {
      if i < |init| {
        LastWithIdInPrefix(users, i);
        assert users[i] == init[i];
      }
    }
  }

  /** The audit and the payments agree: the same ids, and each record's total is
      the pay reported for that id. */
  lemma AuditAgreesWithPayments(rates: Rates, users: seq<OnCallUser>)
    ensures GetAuditableOnCallPaymentRecords(rates, users).Keys == CalculateOnCallPayments(rates, users).Keys
    ensures forall k :: k in GetAuditableOnCallPaymentRecords(rates, users) ==>
      GetAuditableOnCallPaymentRecords(rates, users)[k].totalCompensation == CalculateOnCallPayments(rates, users)[k]
  {
    var records, payments := GetAuditableOnCallPaymentRecords(rates, users), CalculateOnCallPayments(rates, users);
    forall k | k in records
      ensures records[k].totalCompensation == payments[k]
    {
      var i := LastIndexWithId(users, k);
      assert records[users[i].id].onCallUser == users[i];
    }
  }

  /** The index of the last user with a given id. */
  lemma LastIndexWithId(users: seq<OnCallUser>, k: string) returns (i: int)
    requires k in Ids(users)
    ensures 0 <= i < |users| && users[i].id == k && IsLastWithId(users, i)
  {
    var u :| u in users && u.id == k;
    var found :| 0 <= found < |users| && users[found] == u;
    i := |users| - 1;
    while users[i].id != k
      invariant found <= i < |users|
      invariant forall j :: i < j < |users| ==> users[j].id != k
      decreases i
    {
      i := i - 1;
    }
  }

  /** With distinct ids there is exactly one payment per user, and it is that
      user's pay. */
  lemma {:induction false} DistinctUsersPayments(rates: Rates, users: seq<OnCallUser>)
    requires DistinctIds(users)
    ensures |CalculateOnCallPayments(rates, users)| == |users|
    ensures forall i :: 0 <= i < |users| ==>
      CalculateOnCallPayments(rates, users)[users[i].id] == CalculateOnCallPayment(rates, users[i])
  {
    DistinctIdsCount(users);
    assert forall i :: 0 <= i < |users| ==> IsLastWithId(users, i);
  }

  lemma {:induction false} DistinctIdsCount(users: seq<OnCallUser>)
    requires DistinctIds(users)
    ensures |Ids(users)| == |users|
  {
    if users != [] {
      var init := users[..|users| - 1];
      assert DistinctIds(init);
      DistinctIdsCount(init);
      IdsOfPrefix(users);
      assert users[|users| - 1].id !in Ids(init);
    }
  }
}
