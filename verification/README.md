# SonicShield emergency engine, modelled in Dafny

SonicShield is a night-safety app. It watches sound and motion, limits that
watching to a nightly window, and on a detection runs a cancellable
ten-second countdown. If nobody cancels it, the countdown sends an SOS to the
registered contacts. The app also keeps an incident log.

This project models the engine behind those features. It has three parts.

- **The safety context** (`SafetyContext.tsx`), in `safety_context.dfy` and `time_of_day.dfy`:
  - the settings record and its defaults;
  - the shallow partial update `updateSettings`;
  - the incident log, where `addLog` puts the newest entry first;
  - the emergency flag;
  - the schedule check, which compares zero-padded `"HH:MM"` strings with
    JavaScript's string order and forces `isMonitoring` to follow the window
    while the schedule is enabled.
- **The dashboard** (`Dashboard.tsx`), in `dashboard.dfy`:
  - the countdown effect, stepped by one-second ticks;
  - the "I'm Safe" and "Send SOS Now" buttons;
  - the settings switches;
  - the schedule picker, which formats a window as `"start - end"` and splits the chosen value back apart.
- **The panic button** (`PanicButton.tsx`), in `panic_button.dfy`:
  - `handlePanic`, with its try/catch fallback to a dispatch without a location;
  - the `isPressing` flag.

`triggerSOS` and `getLocation` live in a helper module (`../utils/sosLogic`) that is not part of this model. `sos_logic.dfy` stands in for them:

- each `triggerSOS` call is appended, with its contacts and optional location, to a ghost trace in `SosChannel`;
- the outcome of `getLocation` (a location, or a rejection) is a parameter of the operation that awaits it.

The clock is a parameter as well. The schedule check takes the hour and the minute that `Date` reports, and so does every settings update that can restart the schedule effect.

Each component with mutable state is a class:

- `SafetyProvider` holds the provider's `useState` cells;
- `Dashboard` holds the countdown and whether a one-second interval is pending;
- `PanicButton` holds `isPressing`.

The countdown's behaviour is specified by a pure step function, `DashboardScreen.Step`, over a `Panel` value. The `Dashboard` methods are proved to perform exactly those steps. The lemmas about whole runs of ticks are stated over the step function.

The two effects are modelled like this.

- **The countdown effect** (`Dashboard.tsx:36-50`). Each event is a state update followed by one run of the effect body, after the cleanup has cleared the pending interval. `EffectIsFixpoint` proves that a second run would change nothing, so one run is the whole reaction.
- **The schedule effect** (`SafetyContext.tsx:81-109`). It restarts, and checks the schedule at once, whenever an update changes one of its inputs: the schedule's `enabled`, `start` and `end`, or `isMonitoring`. `SafetyContext.Settle` is an update followed by that check. `UpdateSettings` performs it, so the monitoring switch, the schedule switch and the picker all end in a check. A write made by the check restarts the effect once more, and that run writes nothing (`SettleLaws`). Between updates, the once-a-minute interval is `CheckSchedule`.

Some behaviours of the code are worth stating outright, because a reader might expect otherwise:

- **Log order.** `addLog` prepends, so the log is newest first.
- **Dispatch and the log.** No code shown here calls `addLog` when an SOS is dispatched, so dispatches leave no log entry.
- **Contacts.** `triggerSOS` receives `settings.sosContacts` unchanged. No code shown here filters out contacts without a phone number.
- **Manual monitoring switch.** The schedule effect depends on `isMonitoring`. With the schedule enabled, a manual switch restarts the effect, and its check undoes the switch at once rather than at the next minute (`SafetyContext.ManualSwitchOverridden`, `DashboardScreen.SwitchThenSchedule`).
- **A throwing dispatch in "Send SOS Now".** If `triggerSOS` throws, `setEmergencyActive(false)` is skipped. The countdown carries on and dispatches a second time when it runs out (`DashboardScreen.SendNowThrowKeepsCountdown`).

## Model

| member | source | states |
|---|---|---|
| TimeOfDay.LexLessIsMinuteOrder | SafetyContext.tsx:91-96 | for well-formed "HH:MM" strings, JavaScript's `<` holds exactly when the first denotes an earlier minute of the day |
| TimeOfDay.LexLessIrreflexive | SafetyContext.tsx:95 | no string is below itself, so `s >= s` always holds |
| TimeOfDay.LexLess | SafetyContext.tsx:91-95 | JavaScript's `<` on strings: lexicographic on characters, a proper prefix below the longer string. Dafny characters are Unicode scalar values and JavaScript compares UTF-16 code units; the two orders agree on ASCII text such as "HH:MM" strings (its meaning on clock strings is `LexLessIsMinuteOrder`) |
| TimeOfDay.ClockStringWellFormed | SafetyContext.tsx:86 | rendering hours < 24 and minutes < 60 with `padStart(2, '0')` gives a well-formed string that denotes minute 60·h + m |
| TimeOfDay.WellFormedIsClockString | SafetyContext.tsx:86 | every well-formed "HH:MM" string is the rendering of the clock reading it denotes |
| TimeOfDay.DecimalString | SafetyContext.tsx:86 | `toString()` of a natural number: its decimal digits, without leading zeros |
| TimeOfDay.PadStart | SafetyContext.tsx:86 | `padStart(n, c)`: the string left-padded with `c` to length `n`, or unchanged when already that long |
| TimeOfDay.TwoDigits | SafetyContext.tsx:86 | `n.toString().padStart(2, '0')`; for n < 100 it is two digits denoting n (`TwoDigitsBelowHundred`) |
| TimeOfDay.TwoDigitsBelowHundred | SafetyContext.tsx:86 | for n < 100, the padded rendering is exactly two digits whose decimal value is n |
| TimeOfDay.ClockString | SafetyContext.tsx:86 | the `"HH:MM"` rendering of a clock reading (its properties are `ClockStringWellFormed` and `WellFormedIsClockString`) |
| TimeOfDay.InWindow | SafetyContext.tsx:90-96 | the check's two comparison branches, with string `<`; proved equal to an independent minute-arithmetic window by `InWindowIsActiveAt` |
| TimeOfDay.InWindowIsActiveAt | SafetyContext.tsx:90-96 | on well-formed strings, the check's two comparison branches decide exactly the window that opens at start and lasts the minutes elapsed until end (crossing midnight when end is earlier); a window of zero length covers the whole day |
| TimeOfDay.EqualBoundsAlwaysActive | SafetyContext.tsx:91-96 | a window whose start equals its end is active at every time, for any strings |
| TimeOfDay.OvernightWindowExample | SafetyContext.tsx:94-95 | 22:00–06:00 is active at 23:30 and 02:00 and not at 12:00 |
| TimeOfDay.DaytimeWindowExample | SafetyContext.tsx:91-92 | 08:00–18:00 is active at 10:00 and not at 20:00 |
| SafetyContext.Merge | SafetyContext.tsx:67-69 | every field the patch gives takes the patch's value (a given schedule replaces the whole schedule object); no field the patch leaves out changes |
| SafetyContext.Prepend | SafetyContext.tsx:77 | `[newLog, ...prev]`; its shape is `PrependShape` |
| SafetyContext.DiffReachesTarget | SafetyContext.tsx:68 | any settings change is one update away, with a patch that gives exactly the fields that differ |
| SafetyContext.MergeEmpty | SafetyContext.tsx:68 | an update that gives no field leaves the settings unchanged |
| SafetyContext.MergeTwice | SafetyContext.tsx:67-69 | two successive updates equal one update with the later patch overriding the earlier; repeating an update is idempotent |
| SafetyContext.Stamp | SafetyContext.tsx:72-76 | the new entry keeps the caller's kind, details and level, and carries the supplied id and timestamp |
| SafetyContext.PrependShape | SafetyContext.tsx:77 | adding an entry grows the log by one, puts the entry at index 0 and shifts every previous entry, unmodified and in order, by one |
| SafetyContext.AddAllNewestFirst | SafetyContext.tsx:71-78 | after several additions the log holds them in reverse call order, followed by the older entries |
| SafetyContext.PrependKeepsNewestFirst | SafetyContext.tsx:75-77 | if timestamps never go back, the log stays ordered by non-increasing timestamp |
| SafetyContext.ReconcileMatchesWindow | SafetyContext.tsx:82-102 | with the schedule enabled, a check leaves `isMonitoring` equal to the window result and changes no other field; with it disabled, the settings are untouched |
| SafetyContext.Reconcile | SafetyContext.tsx:82-102 | one schedule check: untouched while disabled, otherwise `isMonitoring` written to the window result when it differs (its laws are `ReconcileMatchesWindow` and `ReconcileIdempotent`) |
| SafetyContext.ScheduleInputsChanged | SafetyContext.tsx:109 | whether an update changed one of the schedule effect's dependencies |
| SafetyContext.Settle | SafetyContext.tsx:81-109 | an update followed by the check that the restarted effect makes, when the update changed a dependency |
| SafetyContext.SettleLaws | SafetyContext.tsx:98-109 | an update that changes no dependency is final; one that does leaves monitoring equal to the window result while the schedule is enabled and changes no other field; the re-run set off by the check's own write changes nothing |
| SafetyContext.ReconcileIdempotent | SafetyContext.tsx:98-102 | a second check at the same time writes nothing |
| SafetyContext.ManualSwitchOverridden | SafetyContext.tsx:98-109 | with the schedule enabled, a manual monitoring switch followed by the check it triggers ends where the check alone would |
| SafetyContext.ReconcileAtClock | SafetyContext.tsx:84-102 | with the schedule enabled and a well-formed window, the check at h:m turns monitoring on exactly when minute 60·h + m lies in the window |
| SafetyContext.DefaultWindow | SafetyContext.tsx:56-60 | the default window 22:00–06:00 is well formed, crosses midnight, covers 23:30 and 02:00 and not noon |
| SafetyContext.DefaultSettings | SafetyContext.tsx:51-62 | the initial settings: monitoring off, medium sensitivity, vibration and silent mode off, the schedule disabled at 22:00–06:00, no contacts |
| SafetyContext.SafetyProvider.constructor | SafetyContext.tsx:51-65 | the provider starts with monitoring off, medium sensitivity, vibration and silent mode off, the schedule disabled at 22:00–06:00, no contacts, an empty log and no emergency |
| SafetyContext.SafetyProvider.UpdateSettings | SafetyContext.tsx:67-109 | the new settings are the merge of the old ones with the patch, followed by the schedule check at the given clock reading when the merge changed an input of the schedule effect |
| SafetyContext.SafetyProvider.AddLog | SafetyContext.tsx:71-78 | the new log is the stamped entry followed by the old log |
| SafetyContext.SafetyProvider.SetEmergencyActive | SafetyContext.tsx:65 | the emergency flag takes the given value |
| SafetyContext.SafetyProvider.CheckSchedule | SafetyContext.tsx:81-106 | the settings become the result of the schedule check at the rendered clock reading (unchanged while the schedule is disabled) |
| DashboardScreen.EffectIsFixpoint | Dashboard.tsx:36-50 | the effect's own state changes do not call for another run: re-running it changes nothing and dispatches nothing, and its outcome is a settled panel |
| DashboardScreen.Effect | Dashboard.tsx:36-50 | one run of the countdown effect after its cleanup: arm the interval while seconds remain, dispatch without a location and stand down at zero, reset to 10 without an emergency |
| DashboardScreen.Step | Dashboard.tsx:36-162 | each event (a raised emergency, a tick, "I'm Safe", "Send SOS Now") as its state update and the effect run that follows; its laws are the lemmas below |
| DashboardScreen.Run | Dashboard.tsx:36-50 | a series of events applied one by one, with every dispatch they make, in order |
| DashboardScreen.StepKeepsSettled | Dashboard.tsx:34-50 | every event keeps the panel settled: the countdown stays in [1, 10] with an interval pending during an emergency, and is 10 with none pending otherwise |
| DashboardScreen.RaiseStartsCountdown | Dashboard.tsx:38-41 | raising an emergency from rest starts the countdown at 10 with the interval pending; raising it while one is active does nothing |
| DashboardScreen.TickDecrements | Dashboard.tsx:38-41 | while more than one second remains a tick takes exactly one off and does nothing else (the tick at one second dispatches, see `TicksCountDown`); a tick from a cleared interval does nothing |
| DashboardScreen.TicksCountDown | Dashboard.tsx:38-47 | from c seconds left, fewer than c ticks count down without dispatching; the c-th dispatches once without a location, stands down and resets to 10 |
| DashboardScreen.IdleIgnoresTicks | Dashboard.tsx:46-49 | with no emergency, no number of ticks changes anything or dispatches |
| DashboardScreen.AtMostOneAutomaticDispatch | Dashboard.tsx:42-45 | any number of ticks in one emergency dispatches at most once, and only without a location |
| DashboardScreen.ImSafeNeverDispatches | Dashboard.tsx:147 | "I'm Safe" stands the emergency down, resets the countdown and never dispatches |
| DashboardScreen.CancelPreventsDispatch | Dashboard.tsx:147 | after "I'm Safe" at any second left, no number of ticks dispatches |
| DashboardScreen.SendNowDispatchesOnce | Dashboard.tsx:158-162 | "Send SOS Now" dispatches exactly once, to the current contacts, with the location if it was found and without one if not, then stands down |
| DashboardScreen.SendNowThrowKeepsCountdown | Dashboard.tsx:158-162 | if the dispatch of "Send SOS Now" throws, the panel is unchanged, so the countdown carries on and dispatches a second time, without a location, when it runs out |
| DashboardScreen.SwitchFlipsOneFlag | Dashboard.tsx:299 | each switch changes exactly its own field by negating a flag (the schedule switch keeps start and end), and pressing it twice restores the settings |
| DashboardScreen.SwitchPatch | Dashboard.tsx:299 | the patch each switch passes to `updateSettings` (lines 299, 322, 410 and 544): the negated flag, or the schedule with `enabled` negated |
| DashboardScreen.SwitchThenSchedule | Dashboard.tsx:299-410 | the vibration and silent-mode switches never set off the schedule check; with the schedule enabled the monitoring switch is undone at once; enabling the schedule makes monitoring follow the window at once; disabling it keeps monitoring as it was |
| DashboardScreen.FormatThenSplit | Dashboard.tsx:416-418 | splitting `${start} - ${end}` on " - " gives back exactly [start, end] when neither contains a space |
| DashboardScreen.WellFormedHasNoSpace | Dashboard.tsx:416-418 | "HH:MM" strings contain no space, so the round trip applies to them |
| DashboardScreen.FormatRange | Dashboard.tsx:416 | the displayed value `${start} - ${end}` |
| DashboardScreen.SplitFrom | Dashboard.tsx:418 | `split` on a non-empty separator: the text between successive non-overlapping occurrences, scanning from the left, always at least one part |
| DashboardScreen.Split | Dashboard.tsx:418 | `val.split(" - ")`, with `FormatThenSplit` as its round trip |
| DashboardScreen.PickPatch | Dashboard.tsx:418-419 | the picked value's patch: the schedule with the first two split parts as start and end, `enabled` kept |
| DashboardScreen.PickSetsWindow | Dashboard.tsx:416-419 | picking a displayed window sets start and end to its times, keeps `enabled` and touches no other field; picking the value already displayed changes nothing |
| DashboardScreen.PickThenSchedule | Dashboard.tsx:416-419 | with the schedule enabled, picking a new window makes monitoring follow the new window at once and changes nothing else; with it disabled, or for the window already set, the pick is all that happens |
| DashboardScreen.PickerItemsWellFormed | Dashboard.tsx:426-430 | every value the picker offers splits into two well-formed times |
| DashboardScreen.PickerItems | Dashboard.tsx:426-430 | the five values the schedule picker offers, as literal strings |
| DashboardScreen.Dashboard.constructor | Dashboard.tsx:34 | on mount with no emergency the countdown is 10 and no interval is pending |
| DashboardScreen.Dashboard.RunEffect | Dashboard.tsx:36-50 | the panel and the dispatch trace change exactly as one run of the effect prescribes |
| DashboardScreen.Dashboard.Raise | Dashboard.tsx:36-41 | setting the emergency flag performs the `Raise` step |
| DashboardScreen.Dashboard.Tick | Dashboard.tsx:39-41 | one interval tick performs the `Tick` step |
| DashboardScreen.Dashboard.ImSafe | Dashboard.tsx:147 | the "I'm Safe" handler performs the `ImSafe` step |
| DashboardScreen.Dashboard.SendSosNow | Dashboard.tsx:158-162 | the "Send SOS Now" handler performs the `SendNow` step with the location outcome and whether the dispatch threw |
| DashboardScreen.Dashboard.ToggleMonitoring | Dashboard.tsx:299 | the settings become the merge with the negated `isMonitoring`, followed by the schedule check that the change sets off |
| DashboardScreen.Dashboard.ToggleVibration | Dashboard.tsx:322 | the settings become the merge with the negated `vibrationEnabled` |
| DashboardScreen.Dashboard.ToggleSchedule | Dashboard.tsx:410 | the settings become the merge with the schedule whose `enabled` is negated, followed by the schedule check that the change sets off |
| DashboardScreen.Dashboard.ToggleSilentMode | Dashboard.tsx:544 | the settings become the merge with the negated `silentMode` |
| DashboardScreen.Dashboard.PickSchedule | Dashboard.tsx:417-419 | the settings become the merge with the schedule whose start and end are the first two parts of the split value, followed by the schedule check when the window changed |
| DashboardScreen.Dashboard.SelectSensitivity | Dashboard.tsx:514 | only the sensitivity changes, to the chosen level |
| DashboardScreen.Dashboard.UpdateContacts | Dashboard.tsx:452 | only the contact list changes, to the edited one |
| PanicButtonComponent.PanicDispatchLaws | PanicButton.tsx:10-18 | a press always dispatches to the current contacts unchanged: with the location when found, without one when not; a second, location-less dispatch follows exactly when the first threw |
| PanicButtonComponent.PanicCalls | PanicButton.tsx:10-18 | the dispatches one press makes, given the location outcome and whether the first dispatch threw |
| PanicButtonComponent.PanicMatchesSendNow | PanicButton.tsx:12-16 | when nothing throws, a panic press sends what "Send SOS Now" sends |
| PanicButtonComponent.PanicButton.constructor | PanicButton.tsx:8 | the button starts not pressed |
| PanicButtonComponent.PanicButton.HandlePanic | PanicButton.tsx:10-18 | the trace grows by exactly the press's dispatches, to the current contacts; the settings, the log and the emergency flag are unchanged |
| PanicButtonComponent.PanicButton.MouseDown | PanicButton.tsx:25 | `isPressing` becomes true |
| PanicButtonComponent.PanicButton.MouseUp | PanicButton.tsx:26 | `isPressing` becomes false |
| PanicButtonComponent.PanicButton.MouseLeave | PanicButton.tsx:27 | `isPressing` becomes false |
| SosLogic.SosChannel.TriggerSos | Dashboard.tsx:160 | one `triggerSOS` call, appended with its contacts and optional location to the dispatch trace |

## Left out

- Rendering, animation and styling are not modelled. This covers the overlay visuals, the SVG countdown ring and the displayed decibel and intensity values, which use floating point.
- The sound and vibration detection hooks, with their thresholds and debounce, are not part of this model. Their call to `setEmergencyActive(true)` is the `Raise` event.
- The internals of `triggerSOS` and `getLocation` are not part of this model. Each dispatch is a recorded call, and each location request is its outcome.
- `Math.random` ids and `Date.now` timestamps are parameters of `AddLog`. Nothing makes ids unique, and the code does not either.
- `setInterval` and `setTimeout` are not modelled as timers. The one-second interval is the `Tick` event, and the once-a-minute schedule interval is one `CheckSchedule` call per reading. Nothing forces `CheckSchedule` to be called once a minute, or the clock readings to advance.
- The await inside "Send SOS Now" is not modelled. `DashboardScreen.Dashboard.SendSosNow` is atomic, so ticks that would fire while `getLocation` is pending are not interleaved with it. In the app, a countdown that reaches zero during that wait would dispatch automatically, and the button would then dispatch again.
- The await inside `handlePanic` is not modelled either. `PanicButtonComponent.PanicButton.HandlePanic` reads the contacts when it runs, not when the press happened.
- `DashboardScreen.Dashboard.RunEffect`: the model assumes the `triggerSOS` call inside the countdown effect (`Dashboard.tsx:43`) returns. If it threw, the stand-down and the reset would be skipped and the error would leave the effect body, which has no `try`; with no error boundary in `App.tsx`, React would unmount the app, provider state included. This is not modelled. A throw is modelled only in "Send SOS Now" and in `handlePanic`.
- A `triggerSOS` that throws asynchronously is not distinguished. `dispatchThrows` means the first call threw synchronously, which is the case the `try` catches.
- `DashboardScreen.Dashboard.PickSchedule` requires the chosen value to split into at least two parts. Every value the picker offers does (`PickerItemsWellFormed`). A value without " - " would set `end` to `undefined`, which a string field cannot hold.
- The app's page routing, its onboarding and permission pages, the profile form, the mock chart data, the upsell dialog and the "Revert False Alert" `alert()` are not modelled. They are presentation or platform I/O.
