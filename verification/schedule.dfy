/** Grouping the entries of a rendered schedule into on-call users.

    Each schedule entry becomes a user holding one period from the entry's start
    to its end.  Entries are folded, in order, into a map keyed by user id: the
    first entry for an id creates the user (and so fixes the name), and every
    later entry for that id only appends its period.  An entry without a user,
    or with an empty id, is grouped under the empty id rather than dropped.
 */
module Schedule {
  import opened Calendar
  import opened Period
  import opened User
  import opened Wrappers

  /** The user an entry is assigned to, as the scheduling service reports it. */
  datatype UserReference = UserReference(id: string, summary: string)

  datatype ScheduleEntry = ScheduleEntry(start: Timestamp, end: Timestamp, user: Option<UserReference>)

  datatype FinalSchedule = FinalSchedule(renderedScheduleEntries: Option<seq<ScheduleEntry>>)

  /** The user of one schedule entry.  A missing user gives id and name ""; an
      empty id or summary stays "". */
  function GetOnCallUserFromScheduleEntry(entry: ScheduleEntry): (u: OnCallUser)
    ensures |u.onCallPeriods| == 1
    ensures u.onCallPeriods[0].since == entry.start && u.onCallPeriods[0].until == entry.end
    ensures entry.user.None? ==> u.id == "" && u.name == ""
    ensures entry.user.Some? ==> u.id == entry.user.value.id && u.name == entry.user.value.summary
  {
    var id := if entry.user.Some? then entry.user.value.id else "";
    var name := if entry.user.Some? then entry.user.value.summary else "";
    OnCallUser(id, name, [OnCallPeriod(entry.start, entry.end)])
  }

  function EntryId(entry: ScheduleEntry): string
  {
    GetOnCallUserFromScheduleEntry(entry).id
  }

  function EntryName(entry: ScheduleEntry): string
  {
    GetOnCallUserFromScheduleEntry(entry).name
  }

  function EntryPeriod(entry: ScheduleEntry): OnCallPeriod
  {
    GetOnCallUserFromScheduleEntry(entry).onCallPeriods[0]
  }

  /** One step of the grouping: merge one entry's user into the map.  The
      entry's id becomes a key; a user already stored under it keeps its id and
      name and gains the entry's period at the end, a new id stores the entry's
      own user; every other key keeps its user. */
  function AddEntry(users: map<string, OnCallUser>, entry: ScheduleEntry): (r: map<string, OnCallUser>)
    ensures r.Keys == users.Keys + {EntryId(entry)}
    ensures forall k :: k in users && k != EntryId(entry) ==> r[k] == users[k]
    ensures var k := EntryId(entry);
      && r[k].id == (if k in users then users[k].id else k)
      && r[k].name == (if k in users then users[k].name else EntryName(entry))
      && r[k].onCallPeriods == (if k in users then users[k].onCallPeriods else []) + [EntryPeriod(entry)]
  {
    var u := GetOnCallUserFromScheduleEntry(entry);
    if u.id in users then users[u.id := users[u.id].AddOnCallPeriods(u.onCallPeriods)]
    else users[u.id := u]
  }

  /** The grouping of a sequence of entries, folded from the first entry on.
      Its keys are exactly the (defaulted) ids of the entries. */
  function GroupEntries(entries: seq<ScheduleEntry>): (r: map<string, OnCallUser>)
    ensures r.Keys == EntryIds(entries)
  {
    if entries == [] then map[]
    else
      var init, last := entries[..|entries| - 1], entries[|entries| - 1];
      assert entries == init + [last];
      EntryIdsSnoc(init, last);
      AddEntry(GroupEntries(init), last)
  }

  // Reference description of the grouping, entry by entry from the front.

  /** The (defaulted) ids of the entries. */
  ghost function EntryIds(entries: seq<ScheduleEntry>): set<string>
  {
    set e | e in entries :: EntryId(e)
  }

  /** The name given by the first entry with id k. */
  function FirstName(entries: seq<ScheduleEntry>, k: string): string
  {
    if entries == [] then ""
    else if EntryId(entries[0]) == k then EntryName(entries[0])
    else FirstName(entries[1..], k)
  }

  /** The periods of the entries with id k, in entry order. */
  function PeriodsWithId(entries: seq<ScheduleEntry>, k: string): seq<OnCallPeriod>
  {
    if entries == [] then []
    else (if EntryId(entries[0]) == k then [EntryPeriod(entries[0])] else []) + PeriodsWithId(entries[1..], k)
  }

  /** The user the grouping should hold for id k. */
  function ExpectedUser(entries: seq<ScheduleEntry>, k: string): OnCallUser
  {
    OnCallUser(k, FirstName(entries, k), PeriodsWithId(entries, k))
  }

  lemma EntryIdsSnoc(entries: seq<ScheduleEntry>, e: ScheduleEntry)
    ensures EntryIds(entries + [e]) == EntryIds(entries) + {EntryId(e)}
  {
    var all := entries + [e];
    forall k | k in EntryIds(all)
      ensures k in EntryIds(entries) + {EntryId(e)}
    {
      var x :| x in all && EntryId(x) == k;
      var i :| 0 <= i < |all| && all[i] == x;
      if i < |entries| {
        assert entries[i] == x;
      }
    }
    forall k | k in EntryIds(entries)
      ensures k in EntryIds(all)
    {
      var x :| x in entries && EntryId(x) == k;
      assert x in all;
    }
    assert e in all;
  }

  lemma {:induction false} PeriodsWithIdSnoc(entries: seq<ScheduleEntry>, e: ScheduleEntry, k: string)
    ensures PeriodsWithId(entries + [e], k)
         == PeriodsWithId(entries, k) + (if EntryId(e) == k then [EntryPeriod(e)] else [])
  {
    if entries == [] {
      assert [e][1..] == [];
    } else {
      var head := if EntryId(entries[0]) == k then [EntryPeriod(entries[0])] else [];
      var tail := if EntryId(e) == k then [EntryPeriod(e)] else [];
      assert (entries + [e])[0] == entries[0];
      assert (entries + [e])[1..] == entries[1..] + [e];
      PeriodsWithIdSnoc(entries[1..], e, k);
      assert PeriodsWithId(entries + [e], k) == head + (PeriodsWithId(entries[1..], k) + tail);
      assert PeriodsWithId(entries, k) == head + PeriodsWithId(entries[1..], k);
    }
  }

  lemma {:induction false} FirstNameSnoc(entries: seq<ScheduleEntry>, e: ScheduleEntry, k: string)
    ensures k in EntryIds(entries) ==> FirstName(entries + [e], k) == FirstName(entries, k)
    ensures k !in EntryIds(entries) && EntryId(e) == k ==> FirstName(entries + [e], k) == EntryName(e)
  {
    if entries != [] {
      assert (entries + [e])[0] == entries[0];
      assert (entries + [e])[1..] == entries[1..] + [e];
      FirstNameSnoc(entries[1..], e, k);
      if EntryId(entries[0]) != k {
        if k in EntryIds(entries) {
          var x :| x in entries && EntryId(x) == k;
          var i :| 0 <= i < |entries| && entries[i] == x;
          assert i != 0;
          assert entries[1..][i - 1] == x;
        } else {
          forall x | x in entries[1..]
            ensures EntryId(x) != k
          {
            assert x in entries;
          }
        }
      }
    } else {
      assert [e][1..] == [];
    }
  }

  /** The fold builds exactly the reference grouping: one user per (defaulted)
      id of the entries, holding that id, the name of the first entry with it,
      and the periods of all entries with it in entry order. */
  lemma {:induction false} GroupEntriesIsReference(entries: seq<ScheduleEntry>)
    ensures GroupEntries(entries).Keys == EntryIds(entries)
    ensures forall k :: k in GroupEntries(entries) ==> GroupEntries(entries)[k] == ExpectedUser(entries, k)
  {
    if entries != [] {
      var init, e := entries[..|entries| - 1], entries[|entries| - 1];
      assert entries == init + [e];
      GroupEntriesIsReference(init);
      EntryIdsSnoc(init, e);
      var before, after := GroupEntries(init), GroupEntries(entries);
      forall k | k in after
        ensures after[k] == ExpectedUser(entries, k)
      {
        PeriodsWithIdSnoc(init, e, k);
        FirstNameSnoc(init, e, k);
        if k == EntryId(e) && k !in before {
          assert PeriodsWithId(init, k) == [] by {
            NoPeriodsForAbsentId(init, k);
          }
        }
      }
    }
  }

  lemma {:induction false} NoPeriodsForAbsentId(entries: seq<ScheduleEntry>, k: string)
    requires k !in EntryIds(entries)
    ensures PeriodsWithId(entries, k) == []
  {
    if entries != [] {
      assert entries[0] in entries;
      assert EntryIds(entries[1..]) <= EntryIds(entries) by {
        forall x | x in entries[1..]
          ensures x in entries
        {
        }
      }
      NoPeriodsForAbsentId(entries[1..], k);
    }
  }

  /** Grouping one more entry of a sequence is one more fold step. */
  lemma GroupEntriesPrefixStep(entries: seq<ScheduleEntry>, i: int)
    requires 0 <= i < |entries|
    ensures GroupEntries(entries[..i + 1]) == AddEntry(GroupEntries(entries[..i]), entries[i])
  {
    assert entries[..i + 1][..i] == entries[..i];
  }

  /** Groups the rendered entries of a final schedule into users keyed by id; a
      schedule without rendered entries gives no users. */
  method ExtractOnCallUsersFromFinalSchedule(schedule: FinalSchedule) returns (users: map<string, OnCallUser>)
    ensures schedule.renderedScheduleEntries.None? ==> users == map[]
    ensures schedule.renderedScheduleEntries.Some? ==>
      var entries := schedule.renderedScheduleEntries.value;
      users.Keys == EntryIds(entries)
      && forall k :: k in users ==> users[k] == ExpectedUser(entries, k)
  {
    users := map[];
    if schedule.renderedScheduleEntries.Some? {
      var entries := schedule.renderedScheduleEntries.value;
      var i := 0;
      while i < |entries|
        invariant 0 <= i <= |entries|
        invariant users == GroupEntries(entries[..i])
      {
        GroupEntriesPrefixStep(entries, i);
        users := AddEntry(users, entries[i]);
        i := i + 1;
      }
      assert entries[..|entries|] == entries;
      GroupEntriesIsReference(entries);
    }
  }

  /** No entry is dropped: the period of every entry is held by the user of the
      entry's id. */
  lemma NoEntryDropped(entries: seq<ScheduleEntry>, i: int)
    requires 0 <= i < |entries|
    ensures EntryId(entries[i]) in GroupEntries(entries)
    ensures EntryPeriod(entries[i]) in GroupEntries(entries)[EntryId(entries[i])].onCallPeriods
  {
    GroupEntriesIsReference(entries);
    assert entries[i] in entries;
    PeriodInFilter(entries, i);
  }

  lemma {:induction false} PeriodInFilter(entries: seq<ScheduleEntry>, i: int)
    requires 0 <= i < |entries|
    ensures EntryPeriod(entries[i]) in PeriodsWithId(entries, EntryId(entries[i]))
  {
    if i > 0 {
      PeriodInFilter(entries[1..], i - 1);
      assert entries[1..][i - 1] == entries[i];
    }
  }

  /** The stored user's name is the name of the first entry with its id; the
      names of later entries with that id are ignored. */
  lemma {:induction false} FirstEntryFixesName(entries: seq<ScheduleEntry>, i: int)
    requires 0 <= i < |entries|
    requires forall j :: 0 <= j < i ==> EntryId(entries[j]) != EntryId(entries[i])
    ensures EntryId(entries[i]) in GroupEntries(entries)
    ensures GroupEntries(entries)[EntryId(entries[i])].name == EntryName(entries[i])
  {
    GroupEntriesIsReference(entries);
    assert entries[i] in entries;
    FirstNameAt(entries, i);
  }

  lemma {:induction false} FirstNameAt(entries: seq<ScheduleEntry>, i: int)
    requires 0 <= i < |entries|
    requires forall j :: 0 <= j < i ==> EntryId(entries[j]) != EntryId(entries[i])
    ensures FirstName(entries, EntryId(entries[i])) == EntryName(entries[i])
  {
    if i > 0 {
      assert entries[1..][i - 1] == entries[i];
      FirstNameAt(entries[1..], i - 1);
    }
  }
}
