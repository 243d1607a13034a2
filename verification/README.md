# Dark mode scheduling: a verified model

This project models the dark mode scheduling of the UiAppearance service: the alarm timers behind a
schedule, the manager that shows, defers or overrides the scheduled colour per account context, the user's
temporary override and its persistence, the settings store with its observers, the integer side of the
sunrise/sunset calculation, the keys everything is stored under, and the one-time migration of the legacy
parameters. `dafny verify dfyconfig.toml` checks all of it.

## How it is built

* **Values first.** `Schedule`, `AlarmLedger`, `TemporaryWindow`, `TemporaryColorMode`, `SettingData`,
  `UiAppearance` and `DarkMode` describe the state as values (`DarkMode.World` is the whole of it) and each
  operation as a function on them, branch by branch. The properties are lemmas about these functions.
* **Classes beside them.** `AlarmTimers`, `TemporaryColorModes`, `ScreenSwitchOperator`,
  `SettingDataManagers`, `SystemParameters`, `AppearanceDisplays`, `DarkModeManagers` and
  `UiAppearanceAbilities` hold the classes that update their fields in place, with the program's loops; every
  method is proved to take the whole state exactly where the function of the same name takes it.
* **Runs on top.** `ColourRun` is the life of one context under a fixed schedule, second by second;
  `RunStart`, `SunSchedule`, `RefusedUpdates`, `PersistedRuns`, `AccountSwitches`, `FirstNotices` and
  `RunContinues` give the exact condition under which such a run begins and survives a change of its times, a
  refused update, a switch, a restart of the service, the notices that follow either, or a change of the clock;
  `LongRuns` puts them together over what `PersistedLoads` says is stored, `LostRuns` shows inputs at which the
  guarantee is lost, and `EarlyTimers` is a run whose timers fire before their minute; `TimerRun` is the life of
  all contexts; `Observers`, `SunStarts`, `SwitchedColours`, `UserChoice`, `ChosenColours`, `Startup` and
  `ShownColours` are the properties that span several parts.

The clock is an input: a local midnight and a second of the day, on days of 24 hours. What the time service,
the settings store, the parameter service and the application manager answer are inputs too (`Reply`, `Env`,
`SwitchEnv`, `PairReply`, the `refused` sets), so every statement holds for all their answers. Entry points
are atomic. uint64 arithmetic is written out with its wrap-around (`ToU64`); int32 settings are a subset type.

## Where the program is not what one might expect

Each of these is a theorem with its exact condition, not a simplification.

* `IsWithInPreInterval` compares with `<=`. A toggle away from the scheduled colour in the start minute of a
  schedule that crosses midnight gets a window that has already ended (`WindowEndsWhereScheduleLeaves`,
  `StartMinuteToggleIsLost`), and such a toggle is exactly what breaks the run guarantee (`ToggleKeepsExactly`).
* An override's window is an instant, while the schedule under it can move, with the sun or with the zone. An
  override in force then keeps the run exactly when its window still lands, that is, ends at a second in which the
  schedule has the user's colour or changes (`Lands`, `TimeUpdatesBeginRun`, `PairKeepsRun`,
  `TimeChangeBeginsRun`). `ThisNoonIsLost` and `ThisNightIsLost` show a screen that stays light through the night.
* The load after a switch or a restart restores a stored override, but the observers the same switch registers are
  notified at once, and the notice of the mode, or of one of the user's own times, drops it as soon as it takes
  effect. So an override outlives a switch or a restart only while no such notice is granted its timers, and the
  run then depends on the last notice and no longer on the window (`SwitchSettlesExactly`, `RestartSettlesExactly`,
  `ThisPickIsUndone`).
* The load of a sub-profile falls back on its user's settings, the observers do not: a mode whose copy was not
  stored becomes INVALID with the first notice (`LoadedStateStaysExactly`, `LoadedModeReadsBack`).
* The callback's check allows for timers up to five seconds early, the end of an override's window for one
  second only: from two seconds on the last callback of an override leaves it in force
  (`EarlyTimersKeepExactly`). A schedule that starts at midnight allows for none (`EarlyColour`).
* A refused update drops the pending operation and the override although the colour stays. `RefusalKeepsExactly`
  says when that does no harm.
* An unregistration that misses the store leaves an observer there that acts for its old context
  (`UnregisterAllSound`, `StaleObserverSetsTimers`).
* A new sunset/sunrise pair can be lost although it was stored: the sunset observer compares with the sunrise
  still in memory. `PairSurvivesExactly` says which pairs survive, `StoredPairIsLost` shows one that does not.
* The timer key of a sub-profile of user 0 is the key of a base user (`TimerKeyCollidesExactly`,
  `TimerKeysMeet`). Account ids from 1 are safe.
* The unsigned subtraction for the end trigger wraps during the first day of the epoch
  (`TriggersAreNextOccurrences`, `FirstDayWraps`).
* Entering INVALID mode leaves old timers in place; `StaleCallbackIsInert` says they do nothing.
* The migration reads legacy parameters with a non-empty default, so the read never fails and the default
  itself is migrated when a legacy parameter is missing.
* `LoadUserSettingData` does not check that sunset precedes sunrise; the two observers do. A pair loaded out
  of order is refused when its timers are set.

## Model

| member | source | states |
|---|---|---|
| `ColourRun.EveryRunIsGuaranteed` | services/src/dark_mode_manager.cpp:234-257 | Over every run of seconds (both armed timers run whenever they are due), user toggles and screen changes without an excluded toggle, under a schedule that stays the same: the colour shown is the scheduled one, or an override whose window has not ended is recorded, or exactly the scheduled colour waits for the screen to go off; an operation waits only while the screen is on |
| `ColourRun.InvariantIsExact` | services/src/dark_mode_manager.cpp:234-257 | With the timers armed, one account in the foreground and any pending operation its own, the invariant holds if and only if the guarantee holds at every moment of every run to come without an excluded toggle: whatever override is recorded, begun or not, and in a base context or a sub-profile |
| `LongRuns.EveryLifeIsGuaranteed` | services/src/dark_mode_manager.cpp:234-257 | The same over every long run in which, besides, the mode and each of the four times change through their observers, the sun is computed anew, the store changes, updates are refused, the clock or the zone changes, the account switches and the service restarts, the last two with any first notices of their observers, as long as no happening meets its breaking condition |
| `LongRuns.StepExactly` | services/src/dark_mode_manager.cpp:425-522 | Each of these happenings keeps the invariant (exact for the guarantee), the sound ledger, the recorded schedule and the stored override together if and only if its own condition is not met; for a switch or a restart with notices, that the last notice does not grant its schedule, or the stored override was neither dropped by one nor lands |
| `LongRuns.LifeBegins` | services/src/dark_mode_manager.cpp:425-457 | Putting a schedule in force begins such a long run if and only if the mode is automatic and its timers are granted |
| `LongRuns.ThisEveningIsKept` | services/src/dark_mode_manager.cpp:425-457 | A concrete evening that begins one |
| `LostRuns.MovedSunsetLosesTheRun` | services/src/dark_mode_manager.cpp:486-522 | The user picks light at 23:00 under 18:00 to 7:00; at noon the recalculation brings 17:59; from 17:59:59 to 7:00 the guarantee fails at every second |
| `LostRuns.ThisNoonIsLost` | services/src/dark_mode_manager.cpp:761-807 | The same with every value concrete, from a noon at which the invariant holds |
| `LostRuns.MovedZoneLosesTheRun` | services/src/dark_mode_manager.cpp:259-304 | The user picks light under 22:00 to 7:00 and the zone then moves an hour ahead: from 22:59:59 to 7:00 of the new clock the guarantee fails at every second |
| `LostRuns.ThisNightIsLost` | services/src/dark_mode_manager.cpp:259-304 | The same with every value concrete, from a night at which the invariant holds |
| `ColourRun.ToggleKeepsExactly` | services/src/dark_mode_manager.cpp:214-232 | A toggle keeps the guarantee if and only if it is not a change away from the scheduled colour in the start minute of a schedule that crosses midnight; a request for the colour shown does nothing |
| `ColourRun.EveryPickIsKept` | services/src/dark_mode_manager.cpp:214-232 | A pick of the colour that is not scheduled is shown and stays on record until the second before the schedule next leaves that colour, over every run of seconds and screen changes, whatever operation was waiting when it was made |
| `ColourRun.TimersFireAtChanges` | services/src/dark_mode_manager.cpp:606-669 | The two armed timers bring exactly one schedule update, with the scheduled colour, at each change of colour and none in any other second |
| `ColourRun.ChangesAtBoundaries` | services/utils/src/alarm_timer_manager.cpp:222-245 | The minute test changes its answer exactly at the configured start and end, on absolute time |
| `ColourRun.OverrideAtChange` | services/src/dark_mode_temp_state_manager.cpp:142-165 | At every change of colour inside a window the effectiveness check holds, and at the window's last one it fails |
| `ColourRun.PickSecondIsOpen` | services/src/dark_mode_temp_state_manager.cpp:142-165 | An update in the very second of a pick, or at or after the last second of its window, replaces or defers over it; strictly in between the pick is left alone and a pending operation dropped |
| `RunStart.ModeUpdateBeginsRun` | services/src/dark_mode_manager.cpp:425-457 | The mode observer leaves a guaranteed run in order if and only if the mode it reads is automatic, its times are a valid schedule and the time service offers both timers, whatever override or pending operation was there |
| `RunStart.TimeUpdatesBeginRun` | services/src/dark_mode_manager.cpp:459-522 | Each of the four time observers takes over just its time, and leaves a run of the new schedule in order if and only if the mode is automatic, the times are a valid schedule, both timers are on offer and, at a new sunset or sunrise, an override lands under the new schedule or has not begun and is dropped or does no harm |
| `RunStart.UpdateSettlesExactly` | services/src/dark_mode_manager.cpp:234-257 | A schedule update settles the context if and only if an active override is reset, is in force and lands, or has yet to begin and is dropped at once or does no harm |
| `RunStart.SwitchBeginsRun` | services/src/ui_appearance_ability.cpp:421-452 | The account switch or the boot path up to the load, before any first notice, leaves a guaranteed run of the loaded schedule if and only if its mode is automatic, its times are valid, both timers are on offer, and an override found in force lands |
| `AlarmLedger.ScheduleArms` | services/utils/src/alarm_timer_manager.cpp:40-65 | A schedule call that returns ERR_OK leaves two distinct running timers with the computed triggers and the given callback, and the ledger in order |
| `AlarmLedger.ScheduleSucceedsExactly` | services/utils/src/alarm_timer_manager.cpp:40-65 | A schedule call returns ERR_OK if and only if the times are a valid schedule and the time service starts two timers with distinct non-zero ids, each free once the timer it replaces is destroyed |
| `RunStart.GrantedExactly` | services/src/dark_mode_manager.cpp:606-621 | The timers of a context are created if and only if neither time is negative, the two are a valid schedule, and such a pair of timers is on offer |
| `RunStart.AcceptedTimesAreValid` | services/src/dark_mode_manager.cpp:606-621 | Settings accepted after the conversion to uint64 are non-negative and mean what they say: a negative setting is never a valid schedule |
| `RunStart.ThisEveningBegins` | services/src/dark_mode_manager.cpp:425-457 | A concrete user, schedule, evening and time service for which a guaranteed run begins |
| `RunContinues.RestartContinuesRun` | services/src/dark_mode_manager.cpp:64-122 | The service restarts in the middle of a guaranteed run with nothing left but the parameters and the settings: colours are read back and told, and the load re-establishes the invariant if and only if the settings still hold an automatic mode, both timers are on offer and no dropped operation waited over an override; the load restores the record and its colour exactly inside the window |
| `RunContinues.RestartSettlesExactly` | services/utils/src/setting_data_manager.cpp:334-356 | The same restart with first notices in any order and number: a restored override survives if and only if no notice of the mode or of the user's times takes effect, and the run goes on if and only if the last notice grants its schedule and an override that survives lands under it |
| `FirstNotices.SwitchSettlesExactly` | services/utils/src/setting_data_manager.cpp:334-356 | The same for any switch or boot: the exact condition for the run, and for the stored override to survive |
| `FirstNotices.NoticesSettleExactly` | services/src/dark_mode_manager.cpp:425-522 | From any state, notices delivered together leave a run of their last schedule if and only if its timers are granted, and an override was dropped by one of them or goes on |
| `FirstNotices.ModeNoticeTakesOver` | services/src/dark_mode_manager.cpp:425-457 | Whenever it comes, a granted notice of the mode shows the scheduled colour at once, with nothing recorded and nothing pending |
| `FirstNotices.PickIsUndone` | services/src/dark_mode_manager.cpp:447-450 | A pick that the load of a switch or a boot restores with its colour is erased and replaced by the scheduled colour when the notice of the mode comes |
| `FirstNotices.ThisPickIsUndone` | services/src/dark_mode_manager.cpp:447-450 | Under 22:00 to 7:00 light is picked at 23:00 and the service restarts at 23:30: light after the load, dark after the notice |
| `FirstNotices.LoadedStateStaysExactly` | services/src/dark_mode_manager.cpp:425-522 | A notice after the load leaves the loaded state as it is if and only if the setting reads back under the context's own key and, for the sun, the pair is ordered; a mode that a sub-profile has from its user and that was not copied becomes INVALID |
| `FirstNotices.NoticesKeepLoadedState` | services/src/dark_mode_manager.cpp:425-522 | After a switch or a boot any number of notices that each read back leave the loaded state in memory |
| `FirstNotices.NoticeRunsItsObserver` | services/src/dark_mode_manager.cpp:396-415 | Each notice runs the function of the observer registered for its setting, with that observer's key and context |
| `FirstNotices.SwitchSendsFiveNotices` | services/utils/src/setting_data_manager.cpp:334-356 | A switch that returns ERR_OK sends five notifications more, the one of each setting under the context's own key |
| `SwitchedColours.SwitchShows` | services/src/ui_appearance_ability.cpp:421-438 | After the load of a switch the context shows the colour its settings decide on (light or dark in an all-day mode, the scheduled one in an automatic mode whose timers are granted), unless an override is in force or they decide on none; every other context shows what it showed; an all-day mode has no timers |
| `SwitchedColours.AllDaySwitchShows` | services/src/dark_mode_manager.cpp:548-558 | A switch into an always-dark or always-light context without an override in force shows exactly that colour and leaves it no timers |
| `SwitchedColours.BootShows` | services/src/ui_appearance_ability.cpp:153-174 | The boot path shows that colour to everyone an accepted update of the context is for, unless an override is in force, and nobody else changes |
| `SwitchedColours.AllDayBootShows` | services/src/dark_mode_manager.cpp:548-558 | A boot into an always-dark or always-light foreground context shows exactly that colour and leaves it no timers |
| `SwitchedColours.AllDayNoticeTakesOver` | services/src/dark_mode_manager.cpp:425-457 | The notice of an all-day mode, from whatever mode there was, shows its colour at once and leaves no override, no pending operation and no timers |
| `SwitchedColours.FailedChangeKeepsColour` | services/src/dark_mode_manager.cpp:524-591 | A state change that returns an error leaves the colour of its caller as it was |
| `SwitchedColours.AccountShows` | services/src/ui_appearance_ability.cpp:421-452 | Whatever is still due, after the whole switch the context shows the colour its settings decide on, or with an override in force, or with none decided, what the migrated parameters or the earlier display gave it; the device is told the colour shown |
| `SwitchedColours.LoadDecides` | services/src/dark_mode_manager.cpp:524-591 | The load returns ERR_OK exactly when the settings decide on a colour, and reports that colour |
| `RunStart.RestoredOverride` | services/src/dark_mode_manager.cpp:108-112 | The load restores the stored override inside its window and drops it outside |
| `PersistedRuns.EveryRunIsRestorable` | services/src/dark_mode_temp_state_manager.cpp:284-303 | Along every guaranteed run whose parameters can be written, the stored record equals the one in memory and, while there is one, the stored colour is the one shown |
| `PersistedRuns.RefusalKeepsRestorable` | services/src/dark_mode_temp_state_manager.cpp:284-303 | The same across events whose updates are refused |
| `RefusedUpdates.RefusalKeepsExactly` | services/src/ui_appearance_ability.cpp:1013-1047 | The invariant survives an event whose updates are refused, and with it the guarantee, if and only if there is nothing to show during it, or what cannot be shown is shown already, or it is an override that a sub-profile keeps and that lands |
| `RefusedUpdates.HarmIsDone` | services/src/ui_appearance_ability.cpp:1013-1047 | Any other refusal loses the guarantee: at once, or, while a sub-profile keeps its override, in some run to come |
| `RunContinues.TimeChangeBeginsRun` | services/src/dark_mode_manager.cpp:259-304 | After a change of the clock or the zone the run goes on at the new time if and only if both timers start again and an active override is in force and lands, or has yet to begin and is dropped at once or does no harm |
| `RunContinues.ConsistentIsSet` | services/src/dark_mode_manager.cpp:606-621 | In every reachable state of an automatic mode with timers, they carry the effective times and the current context, as a restart needs |
| `TimerRun.EveryRunIsConsistent` | services/src/dark_mode_manager.cpp:174-207 | In every run of switches each followed by its load, observers, store changes, timer and recalculation callbacks of any age, choices, screen and time changes: an automatic mode with a timer entry has both ids non-zero, set up for the effective times and carrying them with the current context, an all-day mode has none, a recalculation timer exists only in sunrise/sunset mode, no other key has timers, the ledger is sound, and store registrations equal observers_; a switch that cannot initialize the store is among them |
| `TimerRun.LoadWithoutStore` | services/src/dark_mode_manager.cpp:64-122 | A load without an initialized store reads nothing: the mode is INVALID and timers, store and colours stay as they are |
| `TimerRun.StaleObserverSetsTimers` | services/utils/src/setting_data_manager.cpp:97-115 | An observer that a missed unregistration leaves in the store sets timers for its context when notified, current or not |
| `TimerRun.OtherContextsAreBare` | services/src/dark_mode_manager.cpp:174-207 | In a reachable state no other context has dark mode observers, and none whose timer key is its own has timers |
| `TimerRun.SwitchEmpties` | services/src/dark_mode_manager.cpp:174-207 | A switch past initialization leaves no timer at all; the dark mode observers left are those of the new context, all five when it returns ERR_OK |
| `TimerRun.SwitchNotifiesEveryObserver` | services/utils/src/setting_data_manager.cpp:72-95 | A switch that returns ERR_OK sends each of the five observers exactly one first notification, in order |
| `TimerRun.SwitchSucceedsExactly` | services/src/dark_mode_manager.cpp:174-207 | From every reachable state a switch returns ERR_OK if and only if the store can be initialized, the user is a real one and the store can be reached for each of the five observers |
| `TimerRun.RefusedSwitchKeepsAll` | services/src/dark_mode_manager.cpp:174-207 | A switch to no user or without a store keeps timers, observers and current context |
| `TimerRun.BadModeStops` | services/src/dark_mode_manager.cpp:425-457 | A mode setting that is missing, no printed integer or none of 0 to 3 makes the mode INVALID; nothing is shown, recorded or pending, and of the timers only the recalculation goes |
| `TimerRun.ChangeMatches` | services/src/dark_mode_manager.cpp:524-591 | After a state change the timers match the mode and the effective times whatever the time service answered; INVALID leaves them as they were |
| `TimerRun.InitKeepsMatch` | services/src/dark_mode_manager.cpp:818-840 | Starting the sunrise/sunset mode keeps the schedule timers matching and adds at most the recalculation timer of that context |
| `TimerRun.StaleCallbackIsInert` | services/src/dark_mode_manager.cpp:628-669 | A callback with other times than the current ones, or outside the automatic modes, changes nothing shown, recorded, pending or armed |
| `TimerRun.UpdateLeavesOthers` | services/src/dark_mode_manager.cpp:234-257 | A schedule update of one context leaves the override of every other as it was |
| `AlarmLedger.EveryRunKeepsTheLedger` | services/utils/src/alarm_timer_manager.cpp:40-65 | After every run of schedule, clear, recalculation and restart calls with arbitrary refusals, the timers alive are exactly the recorded non-zero ids, each recorded once; id and setup maps have the same keys and every setup time is valid |
| `AlarmLedger.ScheduleKeepsLedger` | services/utils/src/alarm_timer_manager.cpp:135-196 | Scheduling keeps the ledger even when either creation or start fails: the replaced timer is destroyed and a timer that will not start is not leaked |
| `AlarmLedger.ClearKeepsSound` | services/utils/src/alarm_timer_manager.cpp:198-220 | Clearing a key destroys all its timers, forgets the key in all three maps and keeps ledger and books |
| `AlarmLedger.SetRecalculationKeepsSound` | services/utils/src/alarm_timer_manager.cpp:301-323 | Creating the recalculation timer, or failing to, keeps ledger and books |
| `AlarmLedger.ClearRecalculationKeepsSound` | services/utils/src/alarm_timer_manager.cpp:325-334 | Clearing the recalculation timer keeps ledger and books |
| `AlarmLedger.RestartArmsNextOccurrences` | services/utils/src/alarm_timer_manager.cpp:254-299 | After RestartAllTimer each schedule timer of a non-zero key that the service starts runs for the next daily occurrence of its recorded minute |
| `AlarmTimers.AlarmTimerManager.RestartAllTimer` | services/utils/src/alarm_timer_manager.cpp:285-299 | With sound books the loop is never cut short: it returns true, has restarted both timers of every non-zero key for the triggers of the recorded times, and touched nothing else |
| `AlarmTimers.AlarmTimerManager.SetScheduleTime` | services/utils/src/alarm_timer_manager.cpp:40-65 | The new maps, timers and error code are those of the specification on which the ledger is proved |
| `AlarmTimers.AlarmTimerManager.SetTimer` | services/utils/src/alarm_timer_manager.cpp:135-151 | Replaces the timer of one slot in place as the specification says |
| `AlarmTimers.AlarmTimerManager.InitTimer` | services/utils/src/alarm_timer_manager.cpp:153-175 | Returns 0 and leaves the service as it was when creation or start fails, else a running timer under a fresh id |
| `AlarmTimers.AlarmTimerManager.ClearTimerByUserId` | services/utils/src/alarm_timer_manager.cpp:198-220 | The three maps and the timers afterwards are those of the specification |
| `AlarmTimers.AlarmTimerManager.RestartTimerByUserId` | services/utils/src/alarm_timer_manager.cpp:254-276 | False exactly for key 0 or a key missing from a map; otherwise both timers are restarted |
| `AlarmTimers.AlarmTimerManager.SetRecalculationTimer` | services/utils/src/alarm_timer_manager.cpp:301-323 | An existing recalculation timer is kept; a refused one leaves no entry |
| `AlarmTimers.AlarmTimerManager.ClearRecalculationTimer` | services/utils/src/alarm_timer_manager.cpp:325-334 | Destroys and forgets the recalculation timer of the key only |
| `Schedule.TriggersAreNextOccurrences` | services/utils/src/alarm_timer_manager.cpp:87-118 | The start trigger is the daily occurrence in [now, now+day) and the end trigger the one in (now, now+day], if and only if the uint64 subtraction does not wrap (the end instant is not in the first day of the epoch when the start is still ahead) |
| `Schedule.FirstDayWraps` | services/utils/src/alarm_timer_manager.cpp:106-110 | At the epoch itself the end trigger of a 7:00 to 22:00 schedule wraps to just below 2^64 |
| `Schedule.NextOccurrenceIsUnique` | services/utils/src/alarm_timer_manager.cpp:87-118 | There is only one such occurrence |
| `Schedule.TriggerOrderEncodesColour` | services/utils/src/alarm_timer_manager.cpp:106-117 | The current minute is dark if and only if the next end precedes the next start or now is exactly the start instant |
| `Schedule.ValidScheduleBounds` | services/utils/src/alarm_timer_manager.cpp:67-85 | In uint64 arithmetic a schedule is valid if and only if start is a minute of the day and end follows it by less than a day |
| `Schedule.DueAtBoundary` | services/utils/src/alarm_timer_manager.cpp:103-117 | A daily timer armed for a boundary is due at every later occurrence of that minute and at no other second |
| `Schedule.CallbackCheckDisagreesExactly` | services/src/dark_mode_manager.cpp:689-705 | The check of the callback and the minute test disagree exactly on the 4 seconds before the start and the 5 seconds before the end |
| `EarlyTimers.EarlyColour` | services/src/dark_mode_manager.cpp:689-706 | Up to four seconds before its minute a callback decides on the colour of the boundary, except before a schedule that starts at midnight |
| `EarlyTimers.EarlyTimersKeepExactly` | services/src/dark_mode_temp_state_manager.cpp:142-165 | With timers d seconds early, d at most 4, the last callback of an override ends it and the guarantee holds from the boundary on if and only if d is 0, or 1 and the schedule does not start dark at midnight; from 2 on the override is left recorded past its window, and nothing is shown or pending until the next callback |
| `EarlyTimers.PickIsRunning` | services/src/dark_mode_temp_state_manager.cpp:182-263 | Every pick of the other colour but the excluded one records an override that ends one second before the schedule leaves its colour |
| `TemporaryWindow.WindowEndsWhereScheduleLeaves` | services/src/dark_mode_temp_state_manager.cpp:182-263 | In all six branches the window ends one second before the schedule first leaves the chosen colour, if and only if the toggle is not in the start minute of a midnight-crossing schedule; it then lasts from 60 seconds to less than a day, and in the excluded minute it has already ended |
| `TemporaryWindow.StartMinuteToggleIsLost` | services/src/dark_mode_temp_state_manager.cpp:265-282 | At 22:00:30 under a schedule from 22:00 to 7:00, choosing light gets a window that ended at 21:59:59 |
| `TemporaryWindow.CallbackKeepsThenEnds` | services/src/dark_mode_temp_state_manager.cpp:142-165 | Of the boundaries passed from the toggle to the end of the window a callback keeps the override at all but the last and ends it there |
| `TemporaryWindow.SixBranches` | services/src/dark_mode_temp_state_manager.cpp:206-263 | Each branch of the window, including the `<=` comparison of line 278, yields the same second boundary outside the excluded minute |
| `TemporaryColorMode.SavedRecordIsRebuilt` | services/src/dark_mode_temp_state_manager.cpp:284-303 | What was saved is rebuilt if and only if a Normal record has both times zero; no other context's record changes |
| `TemporaryColorMode.StoredFlagDecides` | services/src/dark_mode_temp_state_manager.cpp:41-66 | A stored record is temporary exactly when its flag is set and not 0; its times are read by atoll, 0 where missing |
| `TemporaryColorMode.WithoutTimesOnlyTheFlag` | services/src/dark_mode_temp_state_manager.cpp:101-125 | Without setting times only the flag in memory changes |
| `TemporaryColorMode.RestartRebuildsEveryRecord` | services/src/dark_mode_temp_state_manager.cpp:41-66 | After any run of the three operations whose writes succeed, a restart rebuilds every record held in memory |
| `TemporaryColorModes.TemporaryColorModeManager.SetColorModeTemporary` | services/src/dark_mode_temp_state_manager.cpp:101-119 | Records and persists the window; without setting times only the flag in memory changes |
| `TemporaryColorModes.TemporaryColorModeManager.SetColorModeNormal` | services/src/dark_mode_temp_state_manager.cpp:125-135 | Clears the record in memory and the stored flag |
| `TemporaryColorModes.TemporaryColorModeManager.InitData` | services/src/dark_mode_temp_state_manager.cpp:41-66 | Reads the record back from the parameters |
| `TemporaryColorModes.TemporaryColorModeManager.SaveTempColorModeInfo` | services/src/dark_mode_temp_state_manager.cpp:284-303 | Writes the flag, and the two times of a temporary record, under the three keys of the context |
| `TemporaryColorModes.TemporaryColorModeManager.IsEffective` | services/src/dark_mode_temp_state_manager.cpp:142-165 | True exactly for a temporary record strictly inside its window |
| `SettingData.StrictReaderAcceptsPrintedIntegers` | services/utils/src/setting_data_manager.cpp:175-196 | The strict reader accepts a string if and only if it is the print of an int32, returns that integer, and otherwise leaves the caller's value |
| `SettingData.LenientReaderAgrees` | services/utils/src/setting_data_manager.cpp:158-173 | Whenever the strict reader succeeds the lenient one returns the same |
| `SettingData.LenientReaderTakesPrefix` | services/utils/src/setting_data_manager.cpp:158-173 | The lenient reader takes a printed integer whatever follows it; the strict one only when nothing does |
| `SettingData.ErrorsTellApart` | services/utils/src/setting_data_manager.cpp:117-256 | The error codes tell apart a missing store, a missing key and a refused write |
| `SettingData.ReadAfterWrite` | services/utils/src/setting_data_manager.cpp:218-262 | Strict reading inverts a successful write of an integer, other keys and users read as before, and a write succeeds if and only if the store is initialized and takes it; a failed one changes nothing |
| `SettingData.FailedPairIsRolledBack` | services/utils/src/setting_data_manager.cpp:264-319 | A failed pair write notifies nobody, leaves the second key alone, and leaves the first key's integer when it was readable and the rollback succeeds |
| `SettingData.FailedPairLeaves` | services/utils/src/setting_data_manager.cpp:263-320 | When the second write fails the first key holds the integer that was readable there, if the rollback is granted, else the new value; without helpers or after a failed first write nothing is written |
| `SettingData.SuccessfulPairNotifiesAfterBoth` | services/utils/src/setting_data_manager.cpp:264-319 | A successful one sends its two notifications in order, each with both values already stored, and changes no other key |
| `SettingData.RegisterAllSound` | services/src/dark_mode_manager.cpp:396-415 | Registering a context's observers keeps store registrations equal to observers_, one context only, and reports success only when all are there |
| `SettingData.UnregisterAllSound` | services/src/dark_mode_manager.cpp:417-423 | Unregistering removes all five observers of the context from observers_, and leaves the store equal to it if and only if the store can be reached for each that was there |
| `SettingData.RegisteringTwiceIsOnce` | services/utils/src/setting_data_manager.cpp:72-95 | A known observer stays the one registered first and is not notified again |
| `SettingData.UnregisteringForgets` | services/utils/src/setting_data_manager.cpp:97-115 | A known observer is forgotten whether or not the store can be reached, which keeps it in the latter case; the three error codes tell the cases apart |
| `SettingDataManagers.SettingDataManager.SetInt32ValuePair` | services/utils/src/setting_data_manager.cpp:264-319 | Store, notifications and error code after the two writes and the rollback are those of the specification |
| `SettingDataManagers.SettingDataManager.GetInt32ValueStrictly` | services/utils/src/setting_data_manager.cpp:175-196 | Code and value of the strict reader on the current store |
| `SettingDataManagers.SettingDataManager.GetInt32Value` | services/utils/src/setting_data_manager.cpp:158-173 | Code and value of the lenient reader on the current store |
| `SettingDataManagers.SettingDataManager.SetStringValue` | services/utils/src/setting_data_manager.cpp:218-255 | Writes, then notifies only when asked to; without a helper ERR_NO_INIT, refused by the store ERR_INVALID_OPERATION, and nothing changes in either case |
| `SettingDataManagers.SettingDataManager.RegisterObserver` | services/utils/src/setting_data_manager.cpp:72-95 | Refused before initialization, idempotent for a known name, recorded only when the store took it |
| `SettingDataManagers.SettingDataManager.UnregisterObserver` | services/utils/src/setting_data_manager.cpp:97-115 | Forgets the observer whether or not the store could be reached |
| `Observers.PairSurvivesExactly` | services/src/dark_mode_manager.cpp:486-522 | The sunset observer followed by the sunrise observer leaves exactly the given pair if and only if it is ordered and its sunset precedes the sunrise in memory or is the default |
| `Observers.StoredPairIsLost` | services/src/dark_mode_manager.cpp:486-522 | A concrete stored pair that the two observers do not bring into memory |
| `Observers.ObserversKeepOrder` | services/src/dark_mode_manager.cpp:486-522 | Each observer leaves sunset before sunrise whatever it found |
| `Observers.StoredPairReachesMemory` | services/utils/src/setting_data_manager.cpp:300-319 | After a successful pair write the two notifications in order bring the stored pair into memory exactly in those cases, and always an ordered one |
| `Observers.LoadTakesEachSetting` | services/src/dark_mode_manager.cpp:64-96 | Each of the five loaded settings is the profile's own, else the user's, else the default, whichever of the five copies the store takes or refuses |
| `Observers.SecondLoadChangesNothing` | services/src/dark_mode_manager.cpp:67-79 | A second load yields the same state whatever becomes of any of the copies, and writes nothing unless it is granted a copy that the first was refused |
| `Observers.LoadingCopiesOnce` | services/src/dark_mode_manager.cpp:68-79 | Loading a setting writes at most the copy under the own key of a sub-profile, without a notification, and loading it again changes nothing |
| `Observers.LoadedValueReadsBack` | services/src/dark_mode_manager.cpp:64-95 | After a load the observer of a time reads the loaded value under the context's own key if and only if nothing had to be copied, the copy was stored, or the value is the default; otherwise it reads the default |
| `Observers.LoadedModeReadsBack` | services/src/dark_mode_manager.cpp:64-95 | The same for the mode, which otherwise reads as INVALID |
| `SunSchedule.RecalculationFollowsTheSun` | services/src/dark_mode_manager.cpp:761-807 | A recalculation whose pair survives its observers makes the scheduled colour dark exactly when the sun is down, for every instant; an unchanged pair is not written again |
| `SunSchedule.PairKeepsRun` | services/src/dark_mode_manager.cpp:486-522 | The two observers of a new pair leave a guaranteed run of the new schedule if and only if the second is granted its timers and a running override lands under it |
| `SunSchedule.RecalculationIsArmed` | services/src/dark_mode_manager.cpp:818-840 | Entering the mode leaves a recalculation timer a day ahead when the service grants it, or the one already there |
| `SunStarts.ModeNoticeStartsTheSun` | services/src/dark_mode_manager.cpp:425-457 | When the mode observer reads the sunrise/sunset mode, a computed pair that differs from memory and that the store takes reads back under both own keys and is notified after, and a recalculation timer of that context is live wherever the time service has one to spare |
| `SunStarts.LoadStartsTheSun` | services/src/dark_mode_manager.cpp:64-122 | The same for a load that finds the mode, over the copies it made |
| `SunStarts.RestartAppliesTheSun` | services/src/dark_mode_manager.cpp:259-304 | A change of the clock or the zone computes, stores and notifies the pair anew in that mode, and touches no setting in any other |
| `SunStarts.OtherModesApplyNothing` | services/src/dark_mode_manager.cpp:809-840 | Outside the mode a computed pair, a late callback and the start of the mode change nothing |
| `SunStarts.StoredPairIsFollowed` | services/src/dark_mode_manager.cpp:486-522 | A stored pair, once both notices are delivered, reaches memory exactly when it survives its observers, and the scheduled colour then follows the sun |
| `SunStarts.EveryRunRecalculates` | services/src/dark_mode_manager.cpp:818-840 | In every reachable state a recalculation timer of the current context computes the sun for that context |
| `SunriseSunset.NightScheduleComplementsDaytime` | services/src/sunrise_sunset_calc.cpp:373-445 | The stored pair is a valid schedule if and only if the local minutes differ; its dark interval is then the complement of IsDaytime for every minute and its length plus GetDayLength is 1440 |
| `SunriseSunset.PairIsPrintedAndParsed` | services/src/sunrise_sunset_calc.cpp:426-445 | The printed pair parses back to sunset and sunrise, the latter a day later when it is earlier on the clock; nothing in the polar cases |
| `SunriseSunset.SunriseFollowsSunset` | services/src/sunrise_sunset_calc.cpp:425-448 | The stored pair is the local minute of the sunset and that of the sunrise, a day later where it is earlier on the clock; the two are equal exactly when both fall on one minute |
| `SunriseSunset.WholeMinuteIsExact` | services/src/sunrise_sunset_calc.cpp:364-371 | A whole UTC minute becomes the local minute shifted by the zone modulo a day, without rounding error |
| `SunriseSunset.NormalizeRoundedMinutes` | services/src/sunrise_sunset_calc.cpp:84-89 | The result is a minute of the day for every input |
| `SunriseSunset.NormalizedIsNearest` | services/src/sunrise_sunset_calc.cpp:84-89 | For every number of seconds the result is the minute of the day nearest to it, half a minute going away from zero |
| `SunriseSunset.LocalMinuteIsNearest` | services/src/sunrise_sunset_calc.cpp:364-371 | For every UTC instant and zone the local minute of the day is within half a minute of the local time, the later of two equally near |
| `SunriseSunset.PolarDaysHaveNoPair` | services/src/sunrise_sunset_calc.cpp:373-448 | In the polar cases there is no pair and no day length, and it is day or night all the time |
| `JulianDay.NextDayIsOneLater` | services/src/sunrise_sunset_calc.cpp:94-106 | For every valid Gregorian date from year 1 the value of the next civil day is exactly one greater |
| `JulianDay.NoonCountsCivilDays` | services/src/sunrise_sunset_calc.cpp:94-106 | At noon the value is 2440588 plus the civil days since 1970-01-01 |
| `JulianDay.DayNumberOfNext` | services/src/sunrise_sunset_calc.cpp:94-106 | The count of civil days this is stated with grows by one from each date to the next |
| `Accounts.TimerKeyCollidesExactly` | services/src/account_context.cpp:134-142 | Two contexts share a timer key if and only if they are equal or a sub-profile of user 0 meets the base user of that number (of user -1, a negative one) |
| `Accounts.TimerKeysMeet` | services/src/account_context.cpp:134-142 | Sub-profile 100 of user 0 has the timer key of user 100 |
| `Accounts.TimerKeyIsInjective` | services/src/account_context.cpp:134-142 | Timer keys are injective for users from 1 |
| `Accounts.ContextStringIsInjective` | services/src/account_context.cpp:113-119 | The text of a context determines it |
| `Accounts.ParamKeyIsInjective` | services/src/account_context.cpp:121-124 | No two of the six parameter prefixes with any two contexts give the same name |
| `Accounts.SettingKeyIsInjective` | services/src/account_context.cpp:126-132 | A dark mode setting of one profile is never that of another, nor another setting |
| `Accounts.ObserverNameIsInjective` | services/utils/src/setting_data_manager.cpp:437-440 | An observer name determines its key and user for arbitrary keys |
| `Accounts.SettingObserverIsInjective` | services/src/dark_mode_manager.cpp:396-403 | No two contexts observe a dark mode setting under one name |
| `ShownColours.UpdateReachesTheAudience` | services/src/ui_appearance_ability.cpp:1013-1047 | An accepted update shows the colour in the foreground context of every user it is for and stores it for that context and the device; nothing else changes; a refused one changes nothing |
| `ShownColours.ForegroundProfileIsReached` | services/src/ui_appearance_ability.cpp:1013-1047 | A user with a sub-profile in the foreground is shown the colour there and not in the base context |
| `UserChoice.ChoiceReachesEveryUser` | services/src/ui_appearance_ability.cpp:694-739 | With several foreground users the setter succeeds if and only if the colour of every one can be stored; each then shows it and has an override exactly when its own schedule disagrees, and nobody else is touched |
| `ChosenColours.SetterStores` | services/src/ui_appearance_ability.cpp:694-739 | A request that is taken stores the colour for the device and for every context the setter comes to, up to and including the first that cannot be stored; each of these shows it and records it against its schedule, no other context changes, and success is exactly that all could be stored; any other request changes nothing |
| `ChosenColours.RequestSucceedsExactly` | services/src/ui_appearance_ability.cpp:741-769 | A request succeeds exactly when it is for the colour not shown, updates are accepted and every parameter can be written; for the colour shown it changes nothing |
| `UserChoice.ManualChoiceSticks` | services/src/dark_mode_manager.cpp:129-148 | Outside the automatic modes a choice is shown at once, and becomes the always-dark or always-light mode if and only if it is that already or the parameter and the setting take it; then no timer is left, provided the timers followed the mode where it was that already |
| `UserChoice.ChoiceIsStored` | services/src/dark_mode_manager.cpp:129-148 | The mode setting is written if and only if there is no schedule, it has to change, and both stores take it, and reads back as the choice |
| `Migration.MigrationFillsUnsetContexts` | services/src/ui_appearance_ability.cpp:247-296 | No set parameter is overwritten; every listed context without one gets the legacy value (for the font weight the validated standard default); others are left alone, for every list, repeats included |
| `Migration.MigratesStoredColour` | services/src/ui_appearance_ability.cpp:260-270 | Every listed context without a colour gets the one stored in persist.ace.darkmode, or light where that is unset or empty |
| `Migration.MigratesStoredFontSize` | services/src/ui_appearance_ability.cpp:271-281 | Every listed context without a font size gets the legacy one, or 1 |
| `Migration.MigratesStandardFontWeight` | services/src/ui_appearance_ability.cpp:282-293 | Every listed context without a font weight gets the standard one of the device where that is stored and valid, else the legacy one, else 1 |
| `Migration.MigrationTouchesNothingElse` | services/src/ui_appearance_ability.cpp:247-296 | The migration is marked as done and changes no name but the parameters of the listed contexts |
| `Migration.MigrationIsIdempotent` | services/src/ui_appearance_ability.cpp:247-296 | A second migration over the same contexts changes nothing |
| `Migration.BackfillEffect` | services/src/ui_appearance_ability.cpp:261-270 | One loop writes exactly the unset, writable names of the listed contexts |
| `Migration.MigratedValue` | services/src/ui_appearance_ability.cpp:90-103 | The migrated value is never empty, so a migrated parameter counts as set |
| `Startup.InitRestoresColour` | services/src/ui_appearance_ability.cpp:298-339 | The start of the service over any list of contexts restores the stored colour of each and touches no record of an override |
| `Startup.InitTakesUsersColour` | services/src/ui_appearance_ability.cpp:302-315 | A sub-profile without a colour of its own takes over its user's and stores it |
| `Startup.InitShowsEach` | services/src/ui_appearance_ability.cpp:298-339 | After the start every listed context is remembered with the colour stored for it: its own, a sub-profile's user's, or light where neither is set; no other context changes |
| `Startup.InitTakesOver` | services/src/ui_appearance_ability.cpp:302-315 | Under each of the three prefixes a listed sub-profile without a parameter takes over its user's, or the default (light, 1, the valid standard weight); every set parameter stays |
| `Startup.UpdateKeepsRecord` | services/src/ui_appearance_ability.cpp:1013-1047 | A colour update touches no stored record of an override |
| `AccountSwitches.FirstSwitchShowsLegacyColour` | services/src/ui_appearance_ability.cpp:428-433 | The first switch after an upgrade shows and stores, for a context without a colour of its own, the colour stored in persist.ace.darkmode before, or light: migration comes before reading |
| `AccountSwitches.TellingIsNoMatter` | services/src/ui_appearance_ability.cpp:341-377 | Telling the applications changes neither a guaranteed run nor what a restart needs |
| `DarkModeManagers.DarkModeManager.LoadUserSettingData` | services/src/dark_mode_manager.cpp:64-122 | The whole state and the result afterwards are those of the specification: settings with copies, override, pending operation, timers, recalculation |
| `DarkModeManagers.DarkModeManager.OnSwitchContext` | services/src/dark_mode_manager.cpp:174-207 | Clears the timers and observers of the old context, registers the new one, and reports a failed registration |
| `DarkModeManagers.DarkModeManager.UpdateDarkModeSchedule` | services/src/dark_mode_manager.cpp:234-257 | Shows the scheduled colour now, defers it to screen-off, or leaves a running override alone |
| `DarkModeManagers.DarkModeManager.OnChangeDarkMode` | services/src/dark_mode_manager.cpp:593-604 | Shows the colour and ends the override of the context |
| `DarkModeManagers.DarkModeManager.OnStateChangeLocked` | services/src/dark_mode_manager.cpp:524-546 | Dispatches on the mode; INVALID changes no timer |
| `DarkModeManagers.DarkModeManager.OnStateChangeToAllDayMode` | services/src/dark_mode_manager.cpp:548-558 | Clears all timers of the context and shows the mode's colour |
| `DarkModeManagers.DarkModeManager.OnStateChangeToCustomAutoMode` | services/src/dark_mode_manager.cpp:560-591 | Sets both timers, clears them when that fails, and shows the scheduled colour |
| `DarkModeManagers.DarkModeManager.CreateOrUpdateTimers` | services/src/dark_mode_manager.cpp:606-621 | Passes the times, converted to uint64, and the callback with its captures to the alarm manager |
| `DarkModeManagers.DarkModeManager.SettingDataDarkModeModeUpdateFunc` | services/src/dark_mode_manager.cpp:425-457 | Stores the mode (INVALID when unreadable or out of range), applies it, and starts or clears the recalculation |
| `DarkModeManagers.DarkModeManager.SettingDataDarkModeStartTimeUpdateFunc` | services/src/dark_mode_manager.cpp:459-471 | Stores the start time and applies it |
| `DarkModeManagers.DarkModeManager.SettingDataDarkModeEndTimeUpdateFunc` | services/src/dark_mode_manager.cpp:473-484 | Stores the end time and applies it |
| `DarkModeManagers.DarkModeManager.SettingDataDarkModeSunsetTimeUpdateFunc` | services/src/dark_mode_manager.cpp:486-503 | Stores the sunset, or resets both times when it is not before the sunrise |
| `DarkModeManagers.DarkModeManager.SettingDataDarkModeSunriseTimeUpdateFunc` | services/src/dark_mode_manager.cpp:505-522 | Stores the sunrise, or resets both times when it is not after the sunset |
| `DarkModeManagers.DarkModeManager.CheckTimerCallbackParams` | services/src/dark_mode_manager.cpp:628-669 | Yields a colour only for the times now in force in an automatic mode |
| `DarkModeManagers.DarkModeManager.RestartTimer` | services/src/dark_mode_manager.cpp:259-304 | Updates the colour for the current time and restarts all timers, only in an automatic mode |
| `DarkModeManagers.DarkModeManager.ApplySunriseSunsetTimes` | services/src/dark_mode_manager.cpp:761-807 | Writes the pair only while the mode is still sunrise/sunset and the pair differs |
| `DarkModeManagers.DarkModeManager.InitSunriseSunsetMode` | services/src/dark_mode_manager.cpp:818-840 | Applies the times, then arms the recalculation while the mode still holds |
| `DarkModeManagers.DarkModeManager.ScreenOffCallback` | services/src/dark_mode_manager.cpp:155-167 | Carries out the pending operation on its user and forgets it |
| `DarkModeManagers.DarkModeManager.ScreenOnCallback` | services/src/dark_mode_manager.cpp:150-153 | Marks the screen on and nothing else |
| `DarkModeManagers.DarkModeManager.DoSwitchTemporaryColorMode` | services/src/dark_mode_manager.cpp:214-232 | In an automatic mode drops the pending operation and records or clears the override against the schedule |
| `DarkModeManagers.DarkModeManager.NotifyDarkModeUpdate` | services/src/dark_mode_manager.cpp:129-148 | Stores the choice as the mode where it has to change |
| `DarkModeManagers.DarkModeManager.RegisterSettingDataObservers` | services/src/dark_mode_manager.cpp:396-415 | Registers all five observers in order and counts the failures |
| `DarkModeManagers.DarkModeManager.UnregisterSettingDataObservers` | services/src/dark_mode_manager.cpp:417-423 | Unregisters all five |
| `ScreenSwitchOperator.ScreenSwitchOperatorManager.SetScreenOffOperateInfo` | services/src/screen_switch_operator_manager.cpp:50-56 | Replaces the one pending operation |
| `ScreenSwitchOperator.ScreenSwitchOperatorManager.ResetScreenOffOperateInfo` | services/src/screen_switch_operator_manager.cpp:44-49 | Forgets the pending operation, keeping the screen state |
| `AppearanceDisplays.AppearanceDisplay.UpdateDarkModeCallback` | services/src/ui_appearance_ability.cpp:1013-1047 | The loop over the foreground users leaves the display and parameters of the specification |
| `UiAppearanceAbilities.UiAppearanceAbility.ConfigurePersistence` | services/src/ui_appearance_ability.cpp:1075-1092 | Override, display, parameter and mode setting of one context; no setting is written when the parameter cannot be |
| `UiAppearanceAbilities.UiAppearanceAbility.OnSetDarkMode` | services/src/ui_appearance_ability.cpp:694-739 | The whole state and result of the setter, one context or the loop |
| `UiAppearanceAbilities.UiAppearanceAbility.ConfigureForegroundUsers` | services/src/ui_appearance_ability.cpp:727-735 | The loop stops at the first failure with the state reached there |
| `UiAppearanceAbilities.UiAppearanceAbility.SetDarkMode` | services/src/ui_appearance_ability.cpp:741-769 | A request for the colour already shown is refused |
| `UiAppearanceAbilities.UiAppearanceAbility.AccountContextSwitchFunc` | services/src/ui_appearance_ability.cpp:421-452 | Switch, load, migration and initialization where still due, the loaded colour unless the load failed or an override runs, and the device colour told, in that order |
| `UiAppearanceAbilities.UiAppearanceAbility.DoInitProcess` | services/src/ui_appearance_ability.cpp:298-339 | The loop over the contexts leaves the colours and parameters of the specification |
| `UiAppearanceAbilities.UiAppearanceAbility.LoadContextParam` | services/src/ui_appearance_ability.cpp:302-315 | One parameter with the fallback of a sub-profile and its backfill |
| `UiAppearanceAbilities.UiAppearanceAbility.UpdateCurrentUserConfiguration` | services/src/ui_appearance_ability.cpp:341-377 | The colour remembered for the context becomes the colour of the device |
| `UiAppearanceAbilities.UiAppearanceAbility.BootCompletedCallback` | services/src/ui_appearance_ability.cpp:153-174 | The boot path: switch, then a load that shows the colour at once |
| `UiAppearanceAbilities.UiAppearanceAbility.DoCompatibleProcess` | services/src/ui_appearance_ability.cpp:247-296 | The three loops in order and the flag that they ran |
| `SystemParameters.ParameterService.Get` | services/utils/src/parameter_wrap.cpp:20-36 | An unset or empty parameter reads as the default; an empty answer is a failure |
| `SystemParameters.ParameterService.Set` | services/utils/src/parameter_wrap.cpp:37-46 | Writes the parameter unless the service refuses |

## Left out

- Floating-point astronomy (`CalcMeanLong` to `CalcSunTimeMin`, polar detection): sunrise and sunset in UTC seconds and the condition are inputs. `CalcJulianDay` and the minute conversion are over reals, so rounding of doubles is not modelled.
- `FormatTimeFromSec`, `IsNighttime` and the reading of a timestamp into minutes: thin or purely textual.
- Mutex interleavings inside an entry point, such as another thread changing the mode while sunset times are computed, and notifications already on their way when an observer is unregistered. A notification is an event of its own: the sunset times `RestartTimer` re-reads are those in memory.
- Failures of `std::time` and `localtime`, and the milliseconds of the clock that sets the recalculation timer.
- int32 overflow of minutes times 60 in the callback check and the window: no accepted schedule reaches it.
- The time service: it never hands out an id in use and destroying a live timer succeeds.
- Parameter values longer than the 255 characters the read buffer holds, and the once-only guard of the boot callback.
- Reads of the settings store that fail for another reason than a missing key, and the extra recovery of its helper objects.
- The application manager is one answer, accepting updates or not, for all users of a call; background applications, its configuration objects, JSON lists, permissions, common events, location and IPC are not modelled.
- How the sub-profile lists and the foreground context are obtained from the account service: they are inputs.
- `ApplyAppearanceContextToUser` and `HandleSubProfileSwitched`: copying one user's appearance to another.
- Font scale and font weight setters, SmartGesture, the NAPI, ANI and native interfaces, logging and dumps: plain stores and wrappers.
- The forms of the manager's methods for a bare user id: they call the ones for a base context.
- The check of a scale string behind the migration is an arbitrary predicate.
- ColourRun.EveryRunIsGuaranteed: for a single foreground account whose updates are accepted, and a schedule that stays the same. With several accounts a colour of one context is also shown by the others. `EveryLifeIsGuaranteed` takes in refused updates and every event that moves the schedule.
- LongRuns.EveryLifeIsGuaranteed: for a single foreground account at a time, parameters that can be written, a time more than a day past the epoch, and switches after the one that migrates and initializes. Updates are refused only during seconds, toggles and screen changes. A new pair reaches the memory through its two observers, each an event of its own. The first notices of a load come in its second; after a load that does not itself keep the guarantee, a notice in a later second is covered by `NoticesSettleExactly` from the state it finds, not as a step of the long run. Notices that overtake the load are not modelled.
- TimerRun.EveryRunIsConsistent: each load follows the switch to its context, contexts have valid user ids (a switch to an invalid one is refused while its load goes on), and each unregistration reaches the store, by the exact condition of `UnregisterAllSound`.
- UiAppearanceAbilities.UiAppearanceAbility.AccountContextSwitchFunc: the font scale and weight remembered and told beside the colour are not modelled, nor which user the configuration is sent to.
- AlarmTimers.AlarmTimerManager.RestartAllTimer: asks for sound books, which every run of the manager's operations keeps (`EveryRunKeepsTheLedger`).
- DarkModeManagers.DarkModeManager.ScreenOffCallback: acts on the base context of the user, as the program does, so the override record of a sub-profile is not reset there.
