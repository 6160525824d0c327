/** From a rendered schedule to the audit the report prints.

    The report lists the grouped users (in whatever order the map yields them)
    and asks for their audit records; it then prints, per user, the name, the
    total compensation and the two day counts.
 */
module Report {
  import opened User
  import opened Payments
  import opened Schedule

  /** `listed` enumerates the values of `users`: every listed user is the value
      stored under its own id, and every key is the id of some listed user. */
  ghost predicate ListsValuesOf(listed: seq<OnCallUser>, users: map<string, OnCallUser>)
  {
    && (forall i :: 0 <= i < |listed| ==> listed[i].id in users && users[listed[i].id] == listed[i])
    && (forall k :: k in users ==> exists i :: 0 <= i < |listed| && listed[i].id == k)
  }

  /** Auditing the grouped users of a schedule, listed in any order, gives one
      record per (defaulted) id of the entries; each record holds the user built
      from that id's entries and pays the given rates for the weekdays and
      weekend days of all those entries' periods. */
  lemma ScheduleAudit(rates: Rates, entries: seq<ScheduleEntry>, listed: seq<OnCallUser>)
    requires ListsValuesOf(listed, GroupEntries(entries))
    ensures GetAuditableOnCallPaymentRecords(rates, listed).Keys == EntryIds(entries)
    ensures forall k :: k in GetAuditableOnCallPaymentRecords(rates, listed) ==>
      && GetAuditableOnCallPaymentRecords(rates, listed)[k].onCallUser == ExpectedUser(entries, k)
      && GetAuditableOnCallPaymentRecords(rates, listed)[k].totalCompensation
         == PayFor(rates, SumCounts(PeriodsWithId(entries, k)))
  {
    var users := GroupEntries(entries);
    var records := GetAuditableOnCallPaymentRecords(rates, listed);
    GroupEntriesIsReference(entries);
    assert Ids(listed) == users.Keys by {
      forall k | k in users
        ensures k in Ids(listed)
      {
        var i :| 0 <= i < |listed| && listed[i].id == k;
        assert listed[i] in listed;
      }
    }
    forall k | k in records
      ensures records[k].onCallUser == ExpectedUser(entries, k)
    {
      var i := LastIndexWithId(listed, k);
      assert records[listed[i].id].onCallUser == listed[i];
    }
  }
}
