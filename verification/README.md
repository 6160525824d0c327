# On-call out-of-hours pay: a Dafny model

This project models the core of `caloohpay`, a command-line tool that works out
out-of-hours (OOH) on-call pay from a PagerDuty schedule. It models three parts:

- **Day classification and pay.** An on-call period runs from a `since`
  timestamp to an `until` timestamp. It covers every calendar date `d` with
  `date(since) <= d < date(until)`, where each date is read in that
  endpoint's own UTC offset.
  - Monday to Thursday are OOH weekdays. Friday to Sunday are OOH weekend
    days.
  - A user's totals are the sums over the user's periods. Periods are
    appended and never merged, so overlapping periods count a date twice.
  - Pay is a rate per weekday plus a rate per weekend day. The calculator the
    tests exercise uses 50 and 75.
  - The payments map goes from user id to pay. The audit map goes from user
    id to a record that pairs the user with that same pay.
- **Grouping schedule entries into users.** Each rendered schedule entry
  becomes a user with one period. The entries are folded, in order, into a map
  keyed by user id:
  - the first entry for an id creates the user and fixes the name;
  - later entries with that id only append their period;
  - an entry with no user is grouped under the id `""`.
- **The UTC-offset suffix** of the local ISO 8601 date-time the tool builds
  for its default `since`/`until`. It is modelled for whole-hour offsets and
  exactly as written, which includes the doubled sign for negative offsets.

Layout, one module per file:

| file | module | contents |
|---|---|---|
| `wrappers.dfy` | `Wrappers` | `Option` |
| `calendar.dfy` | `Calendar` | day numbers from civil dates (1970-01-01 is day 0, a Thursday), weekdays, local timestamps, reading an instant at an offset |
| `period.dfy` | `Period` | day counts, the weekday/weekend split, on-call periods |
| `user.dfy` | `User` | on-call users and their totals |
| `payments.dfy` | `Payments` | rates, per-user pay, the payments map and the audit records |
| `schedule.dfy` | `Schedule` | schedule entries, their users, and the grouping fold with its reference description |
| `report.dfy` | `Report` | the report path: from grouped entries to the audit |
| `offset.dfy` | `TimezoneOffset` | the offset suffix as written, and the ISO 8601 form |
| `scenarios.dfy` | `Scenarios` | the concrete periods and users with their required counts and pay |

Choices in the model:
- Timestamps are (local day number, second of day). Only the day number
  affects the counts.
- The rates are a parameter. `Payments.StandardRates` is (50, 75).
- Where ids repeat, the payments and the audit keep the last user with each
  id.

## Model

| member | source | states |
|---|---|---|
| `Calendar.WeekdayAnchor` | test/OnCallPaymentCalculator.test.ts:53-55 | 1970-01-01 is day 0 and 2024-08-01 is day 19936, and that day is a Thursday |
| `Calendar.DaysFromCivilNext` | test/OnCallPaymentCalculator.test.ts:37-48 | the calendar date after any date, across month and year ends and in leap years, gets the next day number, so a range of day numbers is exactly a range of calendar dates |
| `Calendar.DayOfWeekAdvances` | test/OnCallPaymentCalculator.test.ts:24-35 | the next day number has the next weekday, and weekdays repeat every seven days |
| `Calendar.DayOfWeek` | test/OnCallPaymentCalculator.test.ts:24-35 | the Thursdays are exactly the day numbers divisible by seven, because day 0 (1970-01-01) is a Thursday |
| `Calendar.FromInstant` | test/OnCallPaymentCalculator.test.ts:8-10 | the local date and second of day of an instant read at an offset are the quotient and remainder of (epoch seconds + offset) by 86400 |
| `Period.WeekendDaysAreFridayToSunday` | src/CalOohPay.ts:171 | a date is a weekend day if and only if it is a Friday, Saturday or Sunday, and a weekday if and only if it is Monday to Thursday |
| `Period.ClassifyCountsDates` | test/OnCallPaymentCalculator.test.ts:13-48 | the weekday count is the number of Monday-to-Thursday dates in [date(since), date(until)), and the weekend count is the number of Friday-to-Sunday dates in that range |
| `Period.OnCallPeriod.NumberOfOohWeekDays` | test/OnCallPaymentCalculator.test.ts:20-21 | a period's weekday count is the number of Monday-to-Thursday dates in [date(since), date(until)) |
| `Period.OnCallPeriod.NumberOfOohWeekendDays` | test/OnCallPaymentCalculator.test.ts:33-34 | a period's weekend count is the number of Friday-to-Sunday dates in [date(since), date(until)) |
| `Period.CountConservation` | test/OnCallPaymentCalculator.test.ts:13-48 | the two counts add up to the number of dates in the half-open range, or to 0 when until's date is not after since's date |
| `Period.EmptyPeriod` | test/OnCallPaymentCalculator.test.ts:13-22 | a period whose until date is on or before its since date counts 0 weekdays and 0 weekend days, whatever the times of day |
| `Period.TimeOfDayIrrelevant` | test/OnCallPaymentCalculator.test.ts:53-94 | two periods with the same endpoint dates have the same counts, whatever their times of day |
| `Period.ClassifySplit` | test/OnCallPaymentCalculator.test.ts:138-173 | cutting a date range at any date in between splits both counts into the counts of the two parts |
| `Period.FullWeek` | test/OnCallPaymentCalculator.test.ts:24-48 | any seven consecutive dates hold exactly four weekdays and three weekend days |
| `Period.WholeWeeks` | test/OnCallPaymentCalculator.test.ts:24-48 | n whole weeks from any date hold 4n weekdays and 3n weekend days |
| `User.SumCountsAppend` | test/OnCallPaymentCalculator.test.ts:187-214 | a user's totals add up over concatenated period lists |
| `User.SumCounts` | test/OnCallPaymentCalculator.test.ts:210-213 | no periods total (0, 0), and the totals are never below the counts of any single period |
| `User.OnCallUser.AddOnCallPeriods` | src/CalOohPay.ts:140 | the id and name stay; the earlier periods keep their places and the added periods follow them in the order given |
| `User.AddOnCallPeriodsTotals` | src/CalOohPay.ts:139-140 | adding periods keeps the user's id, name and earlier periods in order, and raises each total by exactly the added periods' counts |
| `User.SinglePeriodTotals` | test/OnCallPaymentCalculator.test.ts:53-73 | a user with one period has exactly that period's counts as totals |
| `User.RepeatedPeriodsCountTwice` | src/CalOohPay.ts:139-140 | periods are not merged or de-duplicated: the same periods added twice give twice the totals |
| `Payments.RatesDeterminedByPayments` | test/OnCallPaymentCalculator.test.ts:70-114 | the only rates under which 5 weekdays and 6 weekend days pay 700, and 2 weekdays and 1 weekend day pay 175, are 50 per weekday and 75 per weekend day |
| `Payments.CalculateOnCallPayment` | test/OnCallPaymentCalculator.test.ts:72-135 | a user's pay is the weekday rate times the total weekdays plus the weekend rate times the total weekend days, and equals the pay of each period taken separately and added up |
| `Payments.PaymentIsSumOfPeriodPayments` | test/OnCallPaymentCalculator.test.ts:187-214 | paying a user's totals equals paying each period separately and adding up |
| `Payments.AddedPeriodsAddPayment` | src/CalOohPay.ts:139-140 | appending periods to a user raises the user's pay by exactly the pay of those periods |
| `Payments.CalculateOnCallPayments` | test/OnCallPaymentCalculator.test.ts:138-181 | the keys are exactly the input users' ids, and each id maps to the pay of the last input user with that id |
| `Payments.GetAuditableOnCallPaymentRecords` | test/OnCallPaymentCalculator.test.ts:185-216 | the keys are exactly the input users' ids; each record holds a user with its own key and that user's pay, and that user is the last input user with the key |
| `Payments.AuditAgreesWithPayments` | test/OnCallPaymentCalculator.test.ts:211-215 | the audit and the payments map have the same ids, and each record's total compensation is the pay reported for its id |
| `Payments.DistinctUsersPayments` | test/OnCallPaymentCalculator.test.ts:176-181 | for users with distinct ids there is exactly one payment per user, and it is that user's pay |
| `Schedule.GetOnCallUserFromScheduleEntry` | src/CalOohPay.ts:126-131 | the user of an entry holds exactly one period, from the entry's start to its end; a missing user gives id "" and name "", otherwise the id and summary are copied |
| `Schedule.AddEntry` | src/CalOohPay.ts:137-144 | the entry's id becomes a key; a user already stored under it keeps its id and name and gains the entry's period at the end; a new id stores the entry's own user; every other key keeps its user |
| `Schedule.GroupEntries` | src/CalOohPay.ts:135-146 | the keys of the grouping are exactly the (defaulted) ids of the entries |
| `Schedule.GroupEntriesIsReference` | src/CalOohPay.ts:134-147 | the fold's key set is exactly the set of (defaulted) entry ids; each stored user has that id, the name of the first entry with it, and the periods of all entries with it in entry order |
| `Schedule.ExtractOnCallUsersFromFinalSchedule` | src/CalOohPay.ts:134-147 | without rendered entries the result is the empty map; otherwise the loop builds exactly the reference grouping of the entries |
| `Schedule.NoEntryDropped` | src/CalOohPay.ts:137-143 | every entry's id is a key, and the entry's period is among that key's periods, including entries grouped under "" |
| `Schedule.FirstEntryFixesName` | src/CalOohPay.ts:139-143 | the stored name for an id is the name of the first entry with that id; later entries' summaries are ignored |
| `Report.ScheduleAudit` | src/CalOohPay.ts:167-178 | auditing the grouped users of a schedule, listed in any order, gives one record per entry id; each record holds that id's reference user and pays the rates for the counts of all its entries' periods |
| `TimezoneOffset.NatToStringRoundTrip` | src/CalOohPay.ts:36 | a number's decimal text is all digits, has no leading zero, and reads back as the number |
| `TimezoneOffset.OffsetSuffix` | src/CalOohPay.ts:31-36 | the suffix is a valid ISO 8601 offset exactly for offsets from 0 to 99 hours, and then reads back as the same hours; negative offsets and offsets of three or more digits give something else |
| `TimezoneOffset.NonNegativeOffsetSuffix` | src/CalOohPay.ts:31-36 | for an offset h from 0 to 99 the suffix is "+0h:00" or "+hh:00", a valid ISO 8601 offset that reads back as h; offset 0 gives "+00:00" |
| `TimezoneOffset.NegativeOffsetSuffix` | src/CalOohPay.ts:34-36 | for an offset h from -99 to -1 the suffix carries the sign twice: "-0-h:00" for one digit and "--hh:00" for two; it is never a valid ISO 8601 offset |
| `TimezoneOffset.DoubledSignExamples` | src/CalOohPay.ts:34-36 | -5 gives "-0-5:00", -10 gives "--10:00", 0 gives "+00:00" and 1 gives "+01:00" |
| `TimezoneOffset.IsoOffsetSuffixRoundTrip` | src/CalOohPay.ts:31-36 | the corrected suffix of every offset from -99 to 99 is a valid ISO 8601 offset that reads back as the same signed hours, and it equals the as-written suffix for offsets of 0 and above |
| `Scenarios.ScenarioDates` | test/OnCallPaymentCalculator.test.ts:138-173 | the day numbers the scenarios use are those of their calendar dates in August and September 2024 |
| `Scenarios.SameDayEvening` | test/OnCallPaymentCalculator.test.ts:13-22 | 16:30 to 18:30 on 20 September counts (0, 0) |
| `Scenarios.FridayEveningToMonday` | test/OnCallPaymentCalculator.test.ts:24-35 | Friday 20:00 to Monday 10:00 counts (0, 3) |
| `Scenarios.AcrossMonthEnd` | test/OnCallPaymentCalculator.test.ts:117-136 | 28 August 10:00 to 2 September 10:00 counts (2, 3) and pays 325 |
| `Scenarios.FirstToTwelfth` | test/OnCallPaymentCalculator.test.ts:53-94 | 1 August at 00:00 and 1 August at 10:00, each to 12 August 10:00, both count (5, 6) and pay 700 |
| `Scenarios.UntilDateExcluded` | test/OnCallPaymentCalculator.test.ts:96-115 | 28 August 10:00 to 31 August 23:59:59 counts (2, 1) and pays 175, so the until date is not covered |
| `Scenarios.YwTotals` | test/OnCallPaymentCalculator.test.ts:187-214 | user 1PF7DNAV's two periods total 4 weekdays and 5 weekend days and pay 575 |
| `Scenarios.SkTotals` | test/OnCallPaymentCalculator.test.ts:148-157 | user PGO3DTM's two periods total (8, 6) and pay 850 |
| `Scenarios.EgTotals` | test/OnCallPaymentCalculator.test.ts:158-165 | user PINI77A's period totals (1, 0) and pays 50 |
| `Scenarios.CeTotals` | test/OnCallPaymentCalculator.test.ts:166-172 | user PJXZDBT's period totals (4, 3) and pays 425 |
| `Scenarios.FourUsersPayments` | test/OnCallPaymentCalculator.test.ts:175-181 | the payments of the four users are exactly {1PF7DNAV: 575, PGO3DTM: 850, PINI77A: 50, PJXZDBT: 425} |
| `Scenarios.TwoUsersAudit` | test/OnCallPaymentCalculator.test.ts:208-215 | the audit of the first two users exposes 1PF7DNAV's totals (4, 5) and pays 575 and 850 |
| `Scenarios.OwnOffsetDates` | test/OnCallPaymentCalculator.test.ts:53-73 | reading 2024-08-01T00:00+01:00 to 2024-08-12T10:00+01:00 at +01:00 counts 5 weekdays; reading both instants in UTC would count 6 |

## Left out

- The code of `OnCallPeriod`, `OnCallUser`, `OnCallPaymentsCalculator` and `KaluzaOnCallPaymentsCalculator` is not shown. The first two and `KaluzaOnCallPaymentsCalculator` are imported at src/CalOohPay.ts:6-9; `OnCallPaymentsCalculator` is imported at test/OnCallPaymentCalculator.test.ts:2. Their behaviour is reconstructed from the assertions in test/OnCallPaymentCalculator.test.ts, not from their code.
- The audit in the report (src/CalOohPay.ts:170) goes through `KaluzaOnCallPaymentsCalculator`, whose rates are not shown. For that reason the rates are a parameter of every payment member.
- The PagerDuty API request, its promise chain and the console output (src/CalOohPay.ts:149-187) are left out. They are network I/O, and the per-rota requests run concurrently without being awaited. `Report.ScheduleAudit` covers only the pure step from the rendered entries to the printed records; the case of a schedule without rendered entries is covered by `Schedule.ExtractOnCallUsersFromFinalSchedule`.
- The iteration order of `Object.values` and `Object.entries` (src/CalOohPay.ts:168, 173) is left out. `Report.ScheduleAudit` holds for every listing order.
- Loading `.env` and `sanitiseEnvVariable` (src/CalOohPay.ts:13, 19-26) are left out as configuration plumbing.
- The yargs option parsing and the `Date.parse` validation (src/CalOohPay.ts:41-122) are left out. They wrap a library. Parsing ISO 8601 text into instants belongs to that layer, so the model starts from already-parsed local timestamps or from (epoch seconds, offset) pairs.
- The date and time part of `toLocalIsoStringWithOffset` (src/CalOohPay.ts:29-30) is left out. It depends on the host time zone and on `Date.toISOString`.
- Fractional-hour offsets are left out. They come from the floating-point division at src/CalOohPay.ts:31, and the offset suffix is modelled only for whole hours.
- Time-zone and daylight-saving resolution are left out. Each timestamp is already a local date plus a second of day in that endpoint's own offset.
- The claim that constructing a period keeps `since` and `until` unchanged (test/OnCallPaymentCalculator.test.ts:8-10) has no member of its own. `OnCallPeriod` is an immutable datatype whose fields are the given timestamps, so it holds by construction.
- `Schedule.GroupEntriesIsReference`, `Schedule.AddEntry` and `Schedule.ExtractOnCallUsersFromFinalSchedule` leave out ids that name members of `Object.prototype`. The source keys a plain object, and its `in` test (src/CalOohPay.ts:139) also sees inherited members: an id such as `constructor` or `__proto__` is found before it is stored, and the call at src/CalOohPay.ts:140 then fails with a `TypeError`. The model keys a map, so such an id is grouped like any other. Scheduling-service user ids are generated codes and never take these names.
- `Payments.AuditRecord` is a value: it holds a copy of the user as it was when the record was made. The source holds a reference to the user object (test/OnCallPaymentCalculator.test.ts:212-213), so a later change to that user would show through the record. Nothing in the modelled code changes a user after the audit.
- `Period.Classify` and `Calendar.DaysFromCivil` carry no contract of their own. Their properties are stated by `Period.ClassifyCountsDates`, `Period.CountConservation`, `Calendar.DaysFromCivilNext` and `Calendar.WeekdayAnchor`, which keeps the literal evaluation of the scenarios cheap.
- `Schedule.GetOnCallUserFromScheduleEntry`: a user reference is modelled as two strings. An absent `id` or `summary` on a present user therefore looks like the empty string, which `||` maps to `""` anyway.

## Findings

| source | as written | input that shows it | evidently intended | confidence | as-written member | corrected member |
|---|---|---|---|---|---|---|
| src/CalOohPay.ts:34-36 | the sign is written and then the signed offset is appended, so a negative offset carries its `-` twice | offset -5 hours gives `-0-5:00`; -10 gives `--10:00` | an ISO 8601 offset `-05:00` / `-10:00`, with the sign once and the magnitude in two digits | high; not executed | `TimezoneOffset.NegativeOffsetSuffix` | `TimezoneOffset.IsoOffsetSuffixRoundTrip` |
