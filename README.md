# TUM Campus app: download service and smart-alarm receiver

This project models two background entry points of the TUM Campus Android app
and proves what they promise.

- **DownloadService** (`download_service.dfy`, module `DownloadOrchestration`)
  handles one download intent. An intent without an action is ignored. With an action, the service:
  - checks the connectivity gate: connected, and either an app launch or background sync permitted;
  - dispatches to `downloadAll` or to one of the five feed wrappers (cafeterias, kino, news, study rooms, faculties);
  - for ALL past the gate while `EVERYTHING_SETUP` is not true, syncs the calendar, on failed runs too, and sets `EVERYTHING_SETUP` only when `downloadAll` succeeded;
  - for ALL only: imports the bundled default locations into an empty table, stamps `last_update` when the dispatched wrappers and the import succeeded, and updates the cards;
  - sends exactly one COMPLETED or ERROR broadcast;
  - for ALL only: starts the fill-cache service.

  `Run` (split into `RunState` and `RunLog`) is the reference definition of one download. The class `DownloadService` does the same step by step, and its `Download` method is proved to end in exactly the state and effect log that `Run` gives.
- **SmartAlarmReceiver** (`smart_alarm_receiver.dfy`, module `SmartAlarm`)
  dispatches a smart-alarm broadcast:
  - ALARM starts the alert service and records the lecture start;
  - PREALARM launches the route recalculation task;
  - RETRY schedules the alarm;
  - TOGGLE negates the `smart_alarm_active` flag and then schedules, or cancels and resets the widget;
  - BOOT_COMPLETED and PACKAGE_REPLACED reschedule when the active flag is set.

  `Receive` is the reference definition of one broadcast. The class `SmartAlarmReceiver` is proved to do exactly what `Receive` says.
- `effect_logs.dfy` (module `EffectLogs`) counts occurrences in an effect log. `wrappers.dfy` holds `Option`.

Collaborators whose code is not part of this model become inputs or effects:
- the feed managers, `CacheManager`, `CardManager`, `SmartAlarmUtils`, `AlarmSchedulerTask` and `SmartAlarmService`;
- connectivity, the background-sync setting, the clock, the string resources and the locations asset.

Each feed wrapper either succeeds or catches an exception; which feeds fail is an input (`Environment.failingFeeds`). Everything the components do to the outside world is an ordered log of effects.

Behaviour of the code worth knowing, which the model follows:
- With the connectivity gate closed, `successful` keeps its initial value `true` (DownloadService.java:76), so a skipped download is reported as COMPLETED (DownloadService.java:142-143).
- An action string that matches no case of the switch (DownloadService.java:91-121) also leaves `successful` true and ends in a COMPLETED broadcast.
- For ALL, the locations import and the `last_update` stamp (DownloadService.java:124-134) run even when the gate is closed and nothing was fetched.
- `successful` is reset to `true` after the ALL post-steps (DownloadService.java:136), so ALL always broadcasts COMPLETED, whatever failed.
- The receiver lets exceptions escape `onReceive`:
  - a null action, because of the switch on a null string (SmartAlarmReceiver.java:29);
  - a missing extras bundle, or an INFO value of another class (SmartAlarmReceiver.java:62,73);
  - a stored flag that is not a boolean (SmartAlarmReceiver.java:49,90);
  - ALARM without an info, after it has started the alert service (SmartAlarmReceiver.java:77,81).

## Model

| member | source | states |
|---|---|---|
| DownloadOrchestration.FetchEffectsOfAll | app/src/main/java/de/tum/in/tumcampusapp/services/DownloadService.java:202-209 | downloadAll calls the five wrappers in the order cafeterias, kino, news, study rooms, faculties; the first three get the force flag and the last two take none |
| DownloadOrchestration.DownloadAllOkIffNoFeedFails | app/src/main/java/de/tum/in/tumcampusapp/services/DownloadService.java:202-209 | the AND of the five wrapper results is true exactly when no feed's manager throws |
| DownloadOrchestration.FetchEffectsFetch | app/src/main/java/de/tum/in/tumcampusapp/services/DownloadService.java:202-268 | calling the wrappers of some feeds fetches exactly those feeds, in order, and broadcasts nothing |
| DownloadOrchestration.InsertRowsOkIffAllParse | app/src/main/java/de/tum/in/tumcampusapp/services/DownloadService.java:278-281 | the row loop finishes without an exception exactly when every row parses |
| DownloadOrchestration.InsertRowsAddsEveryRow | app/src/main/java/de/tum/in/tumcampusapp/services/DownloadService.java:278-281 | with all rows parsing under distinct ids, each row is stored under its id, the key set grows by exactly those ids, and other entries are unchanged |
| DownloadOrchestration.InsertRowsStopsAtFirstBadRow | app/src/main/java/de/tum/in/tumcampusapp/services/DownloadService.java:278-281 | when row k is the first that throws, the rows before k stay inserted and the import reports the exception |
| DownloadOrchestration.ImportInsertsOneLocationPerRow | app/src/main/java/de/tum/in/tumcampusapp/services/DownloadService.java:273-283 | on an empty table with a readable asset of well-formed rows with distinct ids, the import succeeds and the table holds exactly one location per row |
| DownloadOrchestration.ImportKeepsNonEmptyTable | app/src/main/java/de/tum/in/tumcampusapp/services/DownloadService.java:274-275 | on a non-empty table the import changes nothing and does not throw |
| DownloadOrchestration.FetchEffects | app/src/main/java/de/tum/in/tumcampusapp/services/DownloadService.java:202-268 | calling the wrappers of some feeds yields one fetch effect per feed |
| DownloadOrchestration.RowLocation | app/src/main/java/de/tum/in/tumcampusapp/services/DownloadService.java:279-280 | a CSV row becomes a location exactly when its first cell parses and it has at least nine cells; the id is the parsed first cell and the eight columns are cells 1 to 8 |
| DownloadOrchestration.InsertRows | app/src/main/java/de/tum/in/tumcampusapp/services/DownloadService.java:278-281 | the row loop never removes a location and adds only ids of rows that parse |
| DownloadOrchestration.ImportDefaults | app/src/main/java/de/tum/in/tumcampusapp/services/DownloadService.java:273-283 | a non-empty table is returned unchanged without exception; an unreadable asset leaves the table unchanged and throws exactly when the table is empty; otherwise no location is removed and only row ids are added |
| DownloadOrchestration.InsertRowsKeepsOtherIds | app/src/main/java/de/tum/in/tumcampusapp/services/DownloadService.java:278-281 | rows none of which carries an id leave that id's stored location as it was |
| DownloadOrchestration.InsertRowsLastRowWins | app/src/main/java/de/tum/in/tumcampusapp/services/DownloadService.java:278-281 | with duplicate ids, replaceIntoDb keeps the location of the last row carrying the id |
| DownloadOrchestration.BroadcastFor | app/src/main/java/de/tum/in/tumcampusapp/services/DownloadService.java:142-146 | the broadcast is COMPLETED exactly when the flag is true, and carries a message exactly when it is ERROR |
| DownloadOrchestration.RunLog | app/src/main/java/de/tum/in/tumcampusapp/services/DownloadService.java:76-151 | the effects of one download (Run pairs them with RunState): none exactly when there is no action; otherwise one fetch per dispatched feed, one calendar sync when it runs, and the broadcast plus the two ALL-only steps |
| DownloadOrchestration.RunState | app/src/main/java/de/tum/in/tumcampusapp/services/DownloadService.java:76-151 | the persisted state after one download (the first half of Run): a true EVERYTHING_SETUP stays true, no location is removed, and last_update either stays or becomes the current time |
| DownloadOrchestration.RunViews | app/src/main/java/de/tum/in/tumcampusapp/services/DownloadService.java:88-152 | a download fetches exactly the dispatched feeds, in order, and sends exactly one broadcast, COMPLETED for ALL or when the dispatched wrappers all succeeded, ERROR with the unknown-error text otherwise |
| DownloadOrchestration.RunCounts | app/src/main/java/de/tum/in/tumcampusapp/services/DownloadService.java:95-151 | the calendar is synced once exactly when the action is ALL, the gate is open and EVERYTHING_SETUP is not true, whether or not downloadAll succeeds, so every failed ALL run before setup syncs it again; the cards update and the fill-cache start happen once for ALL and never otherwise |
| DownloadOrchestration.RunEnd | app/src/main/java/de/tum/in/tumcampusapp/services/DownloadService.java:124-151 | ALL ends with the card update, the COMPLETED broadcast and the fill-cache start, in that order |
| DownloadOrchestration.NullActionDoesNothing | app/src/main/java/de/tum/in/tumcampusapp/services/DownloadService.java:81-84 | an intent without an action changes no state and has no effect |
| DownloadOrchestration.OnlyAllPersists | app/src/main/java/de/tum/in/tumcampusapp/services/DownloadService.java:94-104 | an action other than ALL leaves last_update, EVERYTHING_SETUP and the locations table unchanged |
| DownloadOrchestration.ClosedGateFetchesNothing | app/src/main/java/de/tum/in/tumcampusapp/services/DownloadService.java:89-146 | with the gate closed nothing is fetched, the calendar is not synced, the setup flag is kept, and the one broadcast is COMPLETED |
| DownloadOrchestration.AllFetchesEveryFeedInOrder | app/src/main/java/de/tum/in/tumcampusapp/services/DownloadService.java:92-94 | ALL past the gate fetches all five feeds in downloadAll's order, whichever of them fail |
| DownloadOrchestration.SingleFetchesOnlyItsFeed | app/src/main/java/de/tum/in/tumcampusapp/services/DownloadService.java:106-120 | a single-feed action past the gate fetches that feed only, persists nothing, and broadcasts COMPLETED exactly when that feed's wrapper succeeded |
| DownloadOrchestration.FirstRunSetup | app/src/main/java/de/tum/in/tumcampusapp/services/DownloadService.java:92-104 | once setup is done, ALL neither syncs the calendar nor touches the flag; before that it syncs the calendar once, and the flag becomes true exactly when downloadAll succeeded |
| DownloadOrchestration.AllStampsLastUpdate | app/src/main/java/de/tum/in/tumcampusapp/services/DownloadService.java:124-134 | ALL stores the current time as last_update exactly when the dispatched wrappers succeeded and the import did not throw, and keeps the old value otherwise; the table becomes the import's result |
| DownloadOrchestration.AllAlwaysCompletes | app/src/main/java/de/tum/in/tumcampusapp/services/DownloadService.java:124-151 | ALL broadcasts COMPLETED exactly once and updates the cards once, whatever failed |
| DownloadOrchestration.ExactlyOneBroadcast | app/src/main/java/de/tum/in/tumcampusapp/services/DownloadService.java:142-151 | every intent with an action sends exactly one broadcast: COMPLETED without a message iff ALL, gate closed, or no dispatched wrapper failed; ERROR carries the unknown-error text; fill-cache starts iff ALL |
| DownloadOrchestration.SetupIsSticky | app/src/main/java/de/tum/in/tumcampusapp/services/DownloadService.java:96-104 | once EVERYTHING_SETUP is true, no sequence of later downloads clears it |
| DownloadOrchestration.OnlyAllChangesPersistedState | app/src/main/java/de/tum/in/tumcampusapp/services/DownloadService.java:124-134 | a sequence of downloads none of which is ALL leaves the persisted state as it was |
| DownloadOrchestration.DownloadService.constructor | app/src/main/java/de/tum/in/tumcampusapp/services/DownloadService.java:48-50 | a service starts on the stored settings and locations table it is given, a never-written setting included, and has no effects yet |
| DownloadOrchestration.DownloadService.LastUpdate | app/src/main/java/de/tum/in/tumcampusapp/services/DownloadService.java:58-61 | the stored last_update, or 0 when it was never written |
| DownloadOrchestration.DownloadService.DownloadFeed | app/src/main/java/de/tum/in/tumcampusapp/services/DownloadService.java:211-268 | a wrapper performs its manager calls and returns false exactly when they throw |
| DownloadOrchestration.DownloadService.DownloadAll | app/src/main/java/de/tum/in/tumcampusapp/services/DownloadService.java:202-209 | all five wrappers run, with no short-circuit, and the result is true exactly when no feed fails |
| DownloadOrchestration.DownloadService.ImportLocationsDefaults | app/src/main/java/de/tum/in/tumcampusapp/services/DownloadService.java:273-283 | the loop leaves the table and the exception outcome that ImportDefaults describes |
| DownloadOrchestration.DownloadService.SendServiceBroadcast | app/src/main/java/de/tum/in/tumcampusapp/services/DownloadService.java:179-194 | one broadcast with the status, carrying a message only when there is one |
| DownloadOrchestration.DownloadService.HandleAction | app/src/main/java/de/tum/in/tumcampusapp/services/DownloadService.java:89-122 | the gate and the switch fetch the dispatched feeds, sync the calendar on an ALL past the gate while EVERYTHING_SETUP is not true, set the setup flag when that ALL succeeded, and yield the AND of the dispatched wrappers |
| DownloadOrchestration.DownloadService.Conclude | app/src/main/java/de/tum/in/tumcampusapp/services/DownloadService.java:124-151 | the ALL post-steps, the broadcast chosen by the success flag, and the fill-cache start, with the import's table and the conditional stamp |
| DownloadOrchestration.DownloadService.Download | app/src/main/java/de/tum/in/tumcampusapp/services/DownloadService.java:67-152 | one download ends in exactly the persisted state and appends exactly the effects of the reference definition Run |
| SmartAlarm.ReadBool | app/src/main/java/de/tum/in/tumcampus/services/SmartAlarmReceiver.java:49 | getBoolean, as read here and by the toggle at line 90: the default for a missing key, the stored flag for a boolean, and the ClassCastException (None) exactly when the key holds another kind of value |
| SmartAlarm.Receive | app/src/main/java/de/tum/in/tumcampus/services/SmartAlarmReceiver.java:27-53 | one broadcast writes no key but smart_alarm_active and smart_alarm_last, writes nothing when it throws, throws with no effect on a null action, and issues only its branch's kinds of effect: schedule, cancel and widget reset for TOGGLE, only schedules for RETRY and boot, only the alert start for ALARM, only the recalculation for PREALARM, and nothing for any other action |
| SmartAlarm.ToggleReception | app/src/main/java/de/tum/in/tumcampus/services/SmartAlarmReceiver.java:85-100 | TOGGLE throws, changing nothing, exactly when the stored flag is not a boolean; otherwise it stores the negated flag and schedules exactly when the old flag was false and cancels exactly when it was true |
| SmartAlarm.AlarmReception | app/src/main/java/de/tum/in/tumcampus/services/SmartAlarmReceiver.java:72-83 | ALARM completes exactly when the bundle holds an info; it writes only smart_alarm_last and nothing when it throws; it starts the alert service once whenever the bundle exists and INFO is not of another class |
| SmartAlarm.PreAlarmReception | app/src/main/java/de/tum/in/tumcampus/services/SmartAlarmReceiver.java:61-65 | PREALARM writes nothing, throws exactly without a bundle or with INFO of another class, and otherwise launches exactly one recalculation task |
| SmartAlarm.BootReception | app/src/main/java/de/tum/in/tumcampus/services/SmartAlarmReceiver.java:47-52 | the boot branch writes nothing, throws exactly when the boot key holds a non-boolean, and schedules once exactly when it holds true |
| SmartAlarm.ToggleEffectsCounts | app/src/main/java/de/tum/in/tumcampus/services/SmartAlarmReceiver.java:94-99 | the effects after the write schedule once exactly when the new flag is true and cancel once exactly when it is false |
| SmartAlarm.TogglesFollowAlternatingLog | app/src/main/java/de/tum/in/tumcampus/services/SmartAlarmReceiver.java:85-100 | successive toggles leave the flag at the parity of their number and produce exactly AlternatingToggleLog |
| SmartAlarm.AlternatingToggleLogCounts | app/src/main/java/de/tum/in/tumcampus/services/SmartAlarmReceiver.java:94-99 | n alternating toggles schedule and cancel as evenly as n allows, the original flag deciding which gets the extra one |
| SmartAlarm.ToggleNegatesAndSchedulesOrCancels | app/src/main/java/de/tum/in/tumcampus/services/SmartAlarmReceiver.java:85-100 | TOGGLE negates the stored flag and changes no other key; a new true schedules once and never cancels; a new false cancels and then resets the widget, and never schedules; a non-boolean stored value throws with nothing changed |
| SmartAlarm.ToggleTwiceRestoresFlag | app/src/main/java/de/tum/in/tumcampus/services/SmartAlarmReceiver.java:90-92 | two toggles restore the flag; when the key was stored the preferences are exactly as before; the pair schedules once and cancels once |
| SmartAlarm.BootSchedulesIffActive | app/src/main/java/de/tum/in/tumcampus/services/SmartAlarmReceiver.java:47-52 | after a reboot or an update, the receiver schedules exactly once when the active flag is set and does nothing otherwise; a non-boolean value under the boot key throws with nothing scheduled; it writes no preference |
| SmartAlarm.RetrySchedules | app/src/main/java/de/tum/in/tumcampus/services/SmartAlarmReceiver.java:38-40 | RETRY schedules once, unconditionally, and writes nothing |
| SmartAlarm.AlarmRecordsLectureStart | app/src/main/java/de/tum/in/tumcampus/services/SmartAlarmReceiver.java:72-83 | ALARM with an info starts the alert service with it and records its lecture start under smart_alarm_last, and no other key changes; without an info it throws and writes nothing |
| SmartAlarm.PreAlarmLaunchesOneRecalculation | app/src/main/java/de/tum/in/tumcampus/services/SmartAlarmReceiver.java:61-65 | PREALARM launches exactly one recalculation task carrying the bundle's info and writes nothing; without a bundle, or with an INFO value of the wrong class, it throws first |
| SmartAlarm.UnhandledActionDoesNothing | app/src/main/java/de/tum/in/tumcampus/services/SmartAlarmReceiver.java:27-53 | an action the switch does not handle has no effect and writes nothing; a null action throws with nothing done |
| SmartAlarm.WritesOnlyItsOwnKey | app/src/main/java/de/tum/in/tumcampus/services/SmartAlarmReceiver.java:27-100 | only TOGGLE and ALARM write preferences, TOGGLE only smart_alarm_active and ALARM only smart_alarm_last |
| SmartAlarm.ActiveFlagFollowsToggleParity | app/src/main/java/de/tum/in/tumcampus/services/SmartAlarmReceiver.java:85-100 | after n toggles the flag is the original for even n and its negation for odd n; the effects are exactly AlternatingToggleLog, toggle i scheduling when it sets the flag true and cancelling then resetting the widget when it sets it false, so they alternate starting with the one the original flag calls for; the schedule and cancel counts follow |
| SmartAlarm.BootAfterToggleSameKey | app/src/main/java/de/tum/in/tumcampus/services/SmartAlarmReceiver.java:47-52 | when the boot branch reads the key the toggle writes, a reboot after a toggle schedules exactly when the toggle switched the alarm on |
| SmartAlarm.BootIgnoresToggleOtherKey | app/src/main/java/de/tum/in/tumcampus/services/SmartAlarmReceiver.java:49 | when the boot branch reads a different key, a toggle does not change what a later reboot does |
| SmartAlarm.SmartAlarmReceiver.OnReceive | app/src/main/java/de/tum/in/tumcampus/services/SmartAlarmReceiver.java:27-54 | one broadcast ends in exactly the preferences, appended effects and exception outcome of the reference definition Receive |
| SmartAlarm.SmartAlarmReceiver.RestartIfActive | app/src/main/java/de/tum/in/tumcampus/services/SmartAlarmReceiver.java:47-52 | schedules when the flag under the boot key is set; throws when it holds a non-boolean |
| SmartAlarm.SmartAlarmReceiver.HandlePreAlarm | app/src/main/java/de/tum/in/tumcampus/services/SmartAlarmReceiver.java:61-65 | hands the bundle's info, possibly none, to one new recalculation task |
| SmartAlarm.SmartAlarmReceiver.HandleAlarm | app/src/main/java/de/tum/in/tumcampus/services/SmartAlarmReceiver.java:72-83 | starts the alert service, then records the lecture start, throwing where the code dereferences null |
| SmartAlarm.SmartAlarmReceiver.HandleToggle | app/src/main/java/de/tum/in/tumcampus/services/SmartAlarmReceiver.java:85-100 | writes the negated flag, then schedules, or cancels and resets the widget |

## Left out

- Threads and locking are not modelled: `onHandleIntent` runs `download` on a new thread, and `static synchronized` makes downloads single-flight. The model runs downloads one after the other (`RunAll`); mutual exclusion is not something the model can state.
- The feed managers, `CacheManager`, `CardManager` and `OpenHoursManager` are not part of this model. Each wrapper's manager calls are one `Fetch` effect, and whether they throw is the input `failingFeeds`. `lm.empty()` is read as "the locations table has no rows".
- Reading `locations.csv` and `Integer.parseInt` are not modelled. Rows arrive already split into cells, with the parsed id or `None` when parsing throws, and an unreadable asset is `None`. `replaceIntoDb` is an insert-or-replace keyed by id.
- The package-info globals (`G.appVersion` and the others) are not modelled; they do not affect the download.
- Logging is not modelled.
- The `LocalBroadcastManager` and `Intent` objects are not modelled; a broadcast is reduced to its status and optional message.
- SharedPreferences durability is not modelled: `apply()` is treated as an immediate write.
- `CacheManager.syncCalendar` (DownloadService.java:101) and `CardManager.update` (DownloadService.java:135) are outside any try block. The model assumes neither throws. An exception from either would end `download` before its broadcast, so `ExactlyOneBroadcast`, `AllAlwaysCompletes` and `RunEnd` hold only under that assumption.
- `System.currentTimeMillis` is the input `now`, and the unknown-error string resource is the input `unknownErrorText`.
- `onCreate` and `onDestroy` only log and create a `SyncManager`, whose code is not part of this model.
- `c.startService` (SmartAlarmReceiver.java:77) and `SmartAlarmUtils.cancelAlarm` (SmartAlarmReceiver.java:97) are assumed to return normally. An exception from either would end the branch before its next step, so `AlarmRecordsLectureStart` (the `smart_alarm_last` write after the start) and `ToggleNegatesAndSchedulesOrCancels` (the widget reset after the cancel) hold only under that assumption.
- `SmartAlarmUtils`, `AlarmSchedulerTask` and `SmartAlarmService` are not part of this model. The receiver's calls to them are effects. The pre-alarm time arithmetic with `PRE_ALARM_DIFF` lives in them, not in the receiver.
- The value of `Const.SMART_ALARM_ACTIVE` is not part of this model. The boot branch reads a key given as a parameter. `BootAfterToggleSameKey` and `BootIgnoresToggleOtherKey` cover both possibilities.
- `DateUtils.formatDateSql` is not modelled: `smart_alarm_last` holds `SqlDate(instant)`, standing for the formatted string of that instant.
- `SmartAlarmInfo` is reduced to its lecture start and an opaque payload, because the receiver reads nothing else.
- `AssistantService` is not part of this model. It is an HTTP call to an external language-understanding service plus JSON parsing by classes not shown.
