# Sleepywalton alarm core in Dafny

A model of the logic of the Sleepywalton alarm-clock app (Swift/SwiftUI):

- **Scheduling** (`Scheduler`): `AlarmScheduler.schedule(alarms:)` clears every pending
  notification request, then adds one calendar request per enabled Once/Daily alarm
  (id `alarm-<uuid>`) and one repeating request per weekday for Weekdays (2–6) and
  Weekends (1 and 7) alarms (id `alarm-<uuid>-<weekday>`), weekdays numbered
  1 = Sunday … 7 = Saturday. The notification center is a class whose `pending`
  sequence is emptied by `RemoveAllPendingNotificationRequests` and appended to by `Add`.
  Request ids are the datatype `RequestId(alarmId, weekday)` instead of interpolated strings.
  `Schedule` follows the source loop over 1...7 with its `include` test; it is proved
  against `Expand`, a reference definition with the literal weekday lists, and the lemma
  `WeekScanMatchesRule` joins the two.
- **Ring state and sleep log** (`App`): the `AppState` class with `alarms`, `tags`, `logs`,
  `isRinging` and `currentRingDate`; `PresentRing(now)`, `DismissRing(now, logId)` and
  `Bootstrap` with empty defaults for collections that fail to load.
- **Emergency unlock** (`RingView`): the ring screen calls `dismissRing` only when the
  biometric check returned true; the check's result is the parameter `authenticated`.
- **Data** (`Base`, `AlarmModel`, `TagModel`, `SleepLogModel`): `Alarm`, `RepeatRule` with its
  string raw values and `allCases`, `NFCTag`, `SleepLog` and its derived `durationSeconds`.
- **Alarm list mutations** (`AlarmsList`): toggle (first equal alarm), delete at offsets and
  append, each followed by a full reschedule.
- **Statistics** (`Stats`): `avgSleep` as `Option<(hours, minutes)>`, None standing for "--".

Time is integer seconds passed in as `now`; the several `Date()` calls inside one source
method are one instant. A UUID is an opaque value (`Uuid`); the fresh UUID of a new log is the
parameter `logId`.

The model follows the code as written, including these behaviours:

- a second `presentRing` overwrites the ring date;
- `dismissRing` never clears `currentRingDate`, so a later dismissal records another log
  against the same ring date (`TwoDismissalsRecordTwoLogs`);
- the dismissal latency is not clamped at 0, and neither is `durationSeconds`;
- no tag-match dismissal rule exists; only the credential path dismisses.

## Model

| member | source | states |
|---|---|---|
| `AlarmModel.AllCases` | Sources/Models/Alarm.swift:13-18 | definition of `allCases`; its behaviour is stated by `AllCasesIsExhaustive` |
| `AlarmModel.RawValue` | Sources/Models/Alarm.swift:13-18 | definition of the string raw values; its behaviour is stated by `RawValueRoundTrip` and `FromRawValueAcceptsOnlyRawValues` |
| `AlarmModel.FromRawValue` | Sources/Models/Alarm.swift:13-18 | decoding a string yields a rule only when that rule's raw value is the string |
| `AlarmModel.RawValueRoundTrip` | Sources/Models/Alarm.swift:13-18 | decoding the raw value of any rule gives that rule back |
| `AlarmModel.FromRawValueAcceptsOnlyRawValues` | Sources/Models/Alarm.swift:13-18 | decoding succeeds exactly for the raw values of the cases |
| `AlarmModel.AllCasesIsExhaustive` | Sources/Models/Alarm.swift:13-18 | `allCases` has four distinct entries, contains every rule, in the order once, daily, weekdays, weekends |
| `AlarmModel.AlarmEqualityIsStructural` | Sources/Models/Alarm.swift:3-11 | alarm equality is equality of all seven fields, `id` and `nfcTagId` included |
| `AlarmModel.AlarmFieldsAreUnconstrained` | Sources/Models/Alarm.swift:5-10 | an alarm may have no tag and an hour/minute outside a clock time |
| `SleepLogModel.DurationSeconds` | Sources/Models/SleepLog.swift:10-13 | definition of `durationSeconds`; its behaviour is stated by `DurationCases`, `DurationMayBeNegative` and `DurationIgnoresLatency` |
| `SleepLogModel.DurationCases` | Sources/Models/SleepLog.swift:10-13 | duration is 0 without a bedtime, and bedtime plus duration is the wake time otherwise |
| `SleepLogModel.DurationMayBeNegative` | Sources/Models/SleepLog.swift:12 | a bedtime after the wake time gives a negative duration |
| `SleepLogModel.DurationIgnoresLatency` | Sources/Models/SleepLog.swift:8-13 | the stored latency does not affect the duration and is kept as given |
| `Scheduler.IncludesWeekday` | Sources/Managers/AlarmScheduler.swift:35-38 | definition of the per-weekday include test; its behaviour is stated by `WeekScanMatchesRule` |
| `Scheduler.AlarmRequests` | Sources/Managers/AlarmScheduler.swift:17-52 | reference definition of one alarm's requests; its behaviour is stated by `AlarmRequestsByRule`, `AlarmRequestFacts` and `AlarmRequestIdsDistinct` |
| `Scheduler.Expand` | Sources/Managers/AlarmScheduler.swift:17-52 | reference definition of a whole scheduling pass; its behaviour is stated by the `Expand…` lemmas and `Schedule` is proved equal to it |
| `Scheduler.NotificationCenter.RemoveAllPendingNotificationRequests` | Sources/Managers/AlarmScheduler.swift:16 | no request is pending afterwards |
| `Scheduler.NotificationCenter.Add` | Sources/Managers/AlarmScheduler.swift:44-51 | the request is appended to the pending ones |
| `Scheduler.AlarmScheduler.Schedule` | Sources/Managers/AlarmScheduler.swift:14-54 | the pending requests afterwards are exactly `Expand(alarms)`, whatever was pending before (full replace) |
| `Scheduler.WeekScanMatchesRule` | Sources/Managers/AlarmScheduler.swift:34-47 | scanning weekdays 1...7 with the include test picks 2,3,4,5,6 for Weekdays, 1,7 for Weekends, in ascending order |
| `Scheduler.AlarmRequestsByRule` | Sources/Managers/AlarmScheduler.swift:17-52 | disabled: none; Once: one request, no weekday, not repeating; Daily: one, no weekday, repeating; Weekdays: five repeating ones for weekdays 2..6; Weekends: two for 1 then 7; all with the alarm's id, hour and minute |
| `Scheduler.AlarmRequestFacts` | Sources/Managers/AlarmScheduler.swift:24-45 | each request of an alarm names the alarm's id, keeps its hour and minute, carries the shared content, and its id names its trigger weekday, which is within 1..7 |
| `Scheduler.AlarmRequestIdsDistinct` | Sources/Managers/AlarmScheduler.swift:43 | the requests of one alarm have pairwise distinct ids |
| `Scheduler.ExpandAppend` | Sources/Managers/AlarmScheduler.swift:17 | requests follow the input alarm order: expanding a concatenation concatenates the expansions |
| `Scheduler.ExpandLength` | Sources/Managers/AlarmScheduler.swift:17-52 | the number of requests is the sum of 0 (disabled), 1, 1, 5 or 2 per alarm |
| `Scheduler.ExpandOrigin` | Sources/Managers/AlarmScheduler.swift:17 | every request belongs to the expansion of an enabled input alarm |
| `Scheduler.ExpandCarriesAlarmTime` | Sources/Managers/AlarmScheduler.swift:24-26 | each request has the hour and minute of an enabled alarm with the id it names |
| `Scheduler.ExpandKeepsClockTimes` | Sources/Managers/AlarmScheduler.swift:24-26 | if every alarm has a clock time, so does every request (the range is a precondition, not enforced by the type) |
| `Scheduler.ExpandIdsDistinct` | Sources/Managers/AlarmScheduler.swift:43-50 | given distinct ids among enabled alarms, all request ids are pairwise distinct |
| `Scheduler.ExpandForAlarm` | Sources/Managers/AlarmScheduler.swift:17-52 | the requests for one alarm id are exactly the expansion of the alarms carrying that id |
| `Scheduler.NoRequestsForDisabledAlarm` | Sources/Managers/AlarmScheduler.swift:17 | when every alarm with an id is disabled there is no request for that id |
| `App.AppState.constructor` | Sources/AppState.swift:5-10 | empty collections, not ringing, no ring date |
| `App.AppState.Bootstrap` | Sources/AppState.swift:19-22 | each collection is the loaded one, or empty when its load failed; ring state untouched |
| `App.AppState.PresentRing` | Sources/AppState.swift:33-36 | ringing, ring date `now` (overwriting any earlier one), collections unchanged |
| `App.AppState.DismissRing` | Sources/AppState.swift:38-45 | not ringing; ring date kept; without a ring date logs unchanged; with one, exactly one wake log inserted at index 0 and old logs become `logs[1..]` |
| `App.WakeLog` | Sources/AppState.swift:40-41 | definition of the log a dismissal builds; its behaviour is stated by `WakeLogFacts` |
| `App.WakeLogFacts` | Sources/AppState.swift:40-41 | the new log has no bedtime, wake time `now`, latency `now - ringDate` unclamped, duration 0 |
| `App.RepeatedRingOverwritesDate` | Sources/AppState.swift:33-36 | two rings leave the date of the second |
| `App.TwoDismissalsRecordTwoLogs` | Sources/AppState.swift:38-45 | after one ring, two dismissals insert two logs both measured from the same ring date |
| `App.DismissalAfterFortySeconds` | Sources/AppState.swift:38-45 | ringing at 07:00:00 and dismissing at 07:00:40 records a head log with latency 40 and duration 0 |
| `RingView.DismissIfAuthenticated` | Sources/Views/Ring/AlarmRingView.swift:16-21 | a failed credential check changes nothing; a successful one has exactly the effect of `DismissRing` |
| `AlarmsList.FirstIndexOf` | Sources/Views/Alarms/AlarmsListView.swift:20 | returns the first index holding the alarm, or None exactly when it is absent |
| `AlarmsList.Toggled` | Sources/Views/Alarms/AlarmsListView.swift:20-21 | definition of the toggle's array edit; its behaviour is stated by `ToggledAt`, `ToggledAbsent` and `ToggledKeepsShape` |
| `AlarmsList.ToggledAt` | Sources/Views/Alarms/AlarmsListView.swift:20-21 | toggling rewrites `isEnabled` of the first equal alarm and no other element |
| `AlarmsList.ToggledAbsent` | Sources/Views/Alarms/AlarmsListView.swift:20 | toggling an alarm not in the list is a no-op |
| `AlarmsList.ToggledKeepsShape` | Sources/Views/Alarms/AlarmsListView.swift:21 | toggling keeps the length and every field but `isEnabled` of each element |
| `AlarmsList.DisablingLeavesNoRequests` | Sources/Views/Alarms/AlarmsListView.swift:19-24 | with unique ids, switching an alarm off and rescheduling leaves zero requests for its id |
| `AlarmsList.RemoveOffsets` | Sources/Views/Alarms/AlarmsListView.swift:32 | definition of `remove(atOffsets:)`; its behaviour is stated by `RemoveOffsetsLength`, `RemoveOffsetsKeeps` and `RemoveOffsetsOnlySurvivors` |
| `AlarmsList.RemoveOffsetsLength` | Sources/Views/Alarms/AlarmsListView.swift:32 | removal shortens the list by the number of removed offsets |
| `AlarmsList.RemovedBelowAll` | Sources/Views/Alarms/AlarmsListView.swift:32 | when all offsets lie inside the list, the number of removed offsets is the size of the offset set |
| `AlarmsList.RemoveOffsetsKeeps` | Sources/Views/Alarms/AlarmsListView.swift:32 | every survivor at offset j lands at j minus the removed offsets below it (relative order kept) |
| `AlarmsList.RemoveOffsetsOnlySurvivors` | Sources/Views/Alarms/AlarmsListView.swift:32 | every element left is a survivor at its shifted position |
| `AlarmsList.NewAlarmTemplate` | Sources/Views/Alarms/AlarmsListView.swift:40 | definition of the add sheet's starting alarm; its behaviour is stated by `NewAlarmTemplateExpansion` |
| `AlarmsList.NewAlarmTemplateExpansion` | Sources/Views/Alarms/AlarmsListView.swift:40 | the add sheet's starting alarm expands to five repeating 06:30 requests on weekdays 2..6 |
| `AlarmsList.ToggleAlarm` | Sources/Views/Alarms/AlarmsListView.swift:17-26 | alarms become `Toggled(...)`; if the alarm was found everything is rescheduled, else nothing changes; other state untouched |
| `AlarmsList.DeleteAlarms` | Sources/Views/Alarms/AlarmsListView.swift:31-35 | alarms become the old ones without the given offsets, shorter by the number of offsets; pending requests are their expansion |
| `AlarmsList.AddAlarm` | Sources/Views/Alarms/AlarmsListView.swift:40-44 | the alarm is appended at the end; pending requests are the old expansion followed by the new alarm's |
| `Stats.PositiveDurations` | Sources/Views/Stats/StatsDashboardView.swift:7 | definition of the `map`/`filter` step; its behaviour is stated by `PositiveDurationsMembership` and `PositiveDurationsCounts` |
| `Stats.Average` | Sources/Views/Stats/StatsDashboardView.swift:9 | definition of `reduce(0, +) / count`; its behaviour is stated by `AverageWithinRange` |
| `Stats.PositiveDurationsMembership` | Sources/Views/Stats/StatsDashboardView.swift:7 | exactly the positive log durations take part |
| `Stats.PositiveDurationsCounts` | Sources/Views/Stats/StatsDashboardView.swift:7 | each positive duration occurs among the kept durations exactly as often as logs have it, and no other value occurs: every positive log counts once |
| `Stats.AverageWithinRange` | Sources/Views/Stats/StatsDashboardView.swift:9 | the truncated mean lies between the least and the greatest value |
| `Stats.AvgSleep` | Sources/Views/Stats/StatsDashboardView.swift:6-13 | None exactly when no log has a positive duration; otherwise `h >= 0`, `0 <= m < 60` and `h*3600 + m*60 <= avg < h*3600 + m*60 + 60` |
| `Stats.AvgSleepWithinPositiveDurations` | Sources/Views/Stats/StatsDashboardView.swift:7-9 | the mean lies between the shortest and the longest positive durations of the logs |
| `Stats.NoBedtimeLogsIgnored` | Sources/Views/Stats/StatsDashboardView.swift:7 | prepending a log without bedtime (such as a dismissal log) leaves the average unchanged |

## Left out

- Notification authorisation, content sound (`defaultCriticalSound` with a floating-point volume), the center delegate and the `ringRequests` subject: host services; the user's response to a delivered notification is modelled as a direct `PresentRing(now)` call; a notification shown in the foreground does not ring.
- Scheduler.NotificationCenter.Add: the host replaces a pending request with the same identifier; the model appends. Given distinct alarm ids the ids never repeat (`ExpandIdsDistinct`), so both agree.
- App.AppState.DismissRing: the source's defaulted parameter `successViaNFC` is never read by the body, so the model has no such parameter.
- `saveAll` and `StorageRepository` (JSON files): I/O; save failures are ignored by the source, so the model treats saving as having no effect on in-memory state. A failed load is the `None` argument of `Bootstrap`.
- The subscription set up at the end of `bootstrap` and `requestAuthorization`: host services.
- `SecurityManager` (biometrics, PIN in `UserDefaults`) and the `async` task around it: reduced to the boolean `authenticated`.
- NFC scanning (`NFCManager`): the session is started but its delegate methods are empty, so no tag ever dismisses an alarm; there is no tag-match rule to model.
- `Date`/`TimeInterval` are floating point in the source; the model uses integer seconds, which makes the `Int(...)` truncations exact.
- Stats.AvgSleep: the Swift sum traps on 64-bit overflow; the model uses unbounded integers.
- All `DateFormatter` output (`timeString`, the statistics list, the ring screen) and the `"\(h)h \(m)m"` string: formatting; `AvgSleep` returns the pair.
- The sheet binding in RootView that can reset `isRinging` from the UI, onboarding, edit and NFC management screens, the app entry point: user interface without rules.
- The textual request identifiers: represented by the datatype `RequestId`; the uuid's string form is not modelled.
