# Clock core: a Dafny model

This project models the state logic of a page that shows several digital and
analog clocks kept in step by a one-second heartbeat. It covers:

- the three clock variants (`ClockModel`, `DigitalClockModel`, `AnalogClockModel`)
  as pure transitions over one shared clock record. Each transition of an
  observable variant returns a `Step`: the new state and whether it notified
  the clock's observers;
- the `Observable` observer list;
- the `ClocksModel` clock collection and its bulk operations;
- the `TimeTickerService` heartbeat: its callback list, its singleton
  lifecycle and the interval it arms;
- the `Matrix3x3` affine algebra over exact reals;
- the pure display helpers of `DigitalClockView`.

There is one module per source file, plus three helper modules. `Wrappers`
holds `Option` and `Result`. `Seqs` holds `findIndex` and `splice`.
`ClockState` holds the shared record and the edit-mode enum.

Edit modes are kept as the numeric enum of the source (idle = 0, hours = 1,
minutes = 2). Each variant's successor uses the source's own arithmetic:

- the base class uses `(mode + 1) % 2`, so it never reaches minutes;
- the digital clock uses `(mode + 1) % 3`;
- the analog clock switches between idle and minutes.

Identities are plain numbers (`ObserverId`, `ClockId`, `CallbackId`,
`IntervalId`). Identity comparison (`===`) is equality on them.

Parameters stand in for behaviour whose code is not part of this model:

- the current instant is a `TimeOfDay` argument;
- the analog one-second advance is `advance: Clock -> Clock`;
- the digital `reset` is `reset: Clock -> Clock`.

The ticker's `setInterval`/`clearInterval` are modelled as a table of armed
interval handles. Only which intervals are armed is modelled, not timing.

Behaviour of the code that a reader might not expect:

- The analog clock's edit mode alternates between idle and minutes (src/models/AnalogClockModel.ts:20-23). It never enters an hours mode.
- The comment at src/controllers/DigitalClockController.ts:41 mentions a seconds edit mode. No model defines one: the edit modes are idle, hours and minutes (src/models/ClockModel.ts:1-5).
- `notifyObservers` calls `update` once per list entry (src/core/Observer.ts:44-48), so an observer registered twice is updated twice.
- `Observable.removeObserver` removes only the first identical entry (src/core/Observer.ts:33-38). `TimeTickerService.unsubscribe` filters out every occurrence (src/services/TimeTickerService.ts:74-78).
- In AM/PM format only hours above 12 are reduced modulo 12 (src/views/DigitalClockView.ts:106-108). Hour 0 is therefore shown as "00" and hour 12 as "12".

## Model

| member | source | states |
|---|---|---|
| ClockState.Ordinal | src/models/ClockModel.ts:1-5 | idle is the only edit mode numbered 0; every numeric value is below 3 |
| ClockState.OfOrdinal | src/models/ClockModel.ts:1-5 | inverse of the enum numbering on 0..2 |
| Seqs.FindIndex | src/core/Observer.ts:34-36 | `None` exactly when the element is absent; otherwise the index of the first occurrence: it holds the element and no earlier index does |
| Seqs.RemoveAt | src/core/Observer.ts:37 | `splice(i, 1)`: one element shorter, earlier entries kept, later ones shifted down by one, the multiset loses exactly the removed element |
| ClockModel.Init | src/models/ClockModel.ts:11-18 | a new clock starts idle and carries the time read off the current instant; a valid reading gives a valid clock |
| ClockModel.NextEditMode | src/models/ClockModel.ts:20-22 | `% EditMode.minutes` maps idle→hours, hours→idle, minutes→hours, and never yields minutes |
| ClockModel.ToggleEditMode | src/models/ClockModel.ts:20-22 | always changes the edit mode and leaves the time and kind alone |
| ClockModel.TogglesFromIdle | src/models/ClockModel.ts:11-22 | from idle, n toggles give idle for even n and hours for odd n, so minutes is never reached |
| ClockModel.IncreaseValue | src/models/ClockModel.ts:24-31 | idle changes nothing; hours mode gives (h+1) mod 24, minutes mode (m+1) mod 60; seconds never change; ranges are kept; on a valid clock a unit changes iff it is the one being edited |
| ClockModel.GetTime | src/models/ClockModel.ts:33-35 | the base clock renders the empty string |
| DigitalClockModel.New | src/models/DigitalClockModel.ts:8-14 | a digital clock starts idle, with the given format and light flags and the given time |
| DigitalClockModel.NewDefault | src/models/DigitalClockModel.ts:8-14 | with the optional arguments left out, the clock is in 24h format with the light off |
| DigitalClockModel.NextEditMode | src/models/DigitalClockModel.ts:16-19 | `% (EditMode.minutes + 1)` cycles idle→hours→minutes→idle |
| DigitalClockModel.ToggleEditMode | src/models/DigitalClockModel.ts:16-19 | always notifies and changes only the edit mode; it returns to idle exactly from minutes |
| DigitalClockModel.TogglesCycle | src/models/DigitalClockModel.ts:16-19 | n toggles move the mode n places around the three-mode cycle |
| DigitalClockModel.ThreeTogglesRestore | src/models/DigitalClockModel.ts:16-19 | three toggles give back the starting mode |
| DigitalClockModel.ToggleLightState | src/models/DigitalClockModel.ts:32-35 | flips the light, changes nothing else, and notifies |
| DigitalClockModel.ToggleLightInvolution | src/models/DigitalClockModel.ts:32-35 | two toggles restore the clock, and both calls notify |
| DigitalClockModel.ResetLightState | src/models/DigitalClockModel.ts:40-47 | the light ends off; a notification is sent iff it was on; an unlit clock is unchanged |
| DigitalClockModel.ResetLightIdempotent | src/models/DigitalClockModel.ts:40-47 | a second reset is a silent no-op |
| DigitalClockModel.IncreaseValue | src/models/DigitalClockModel.ts:53-65 | idle: no change and no notification; otherwise exactly one notification, hours (h+1) mod 24 or minutes (m+1) mod 60, seconds and all other fields untouched, ranges kept |
| DigitalClockModel.IncreaseChangesOnlyEditedUnit | src/models/DigitalClockModel.ts:53-65 | for every clock, hours change iff hours are edited, and minutes change iff minutes are edited |
| DigitalClockModel.IncreasesAdd | src/models/DigitalClockModel.ts:57-62 | n increases add n to the edited unit modulo its range, keep the clock valid and change no other field |
| DigitalClockModel.IncreasesFullCycle | src/models/DigitalClockModel.ts:57-62 | 24 increases in hours mode, or 60 in minutes mode, give back the same clock |
| DigitalClockModel.ToggleTimeFormat | src/models/DigitalClockModel.ts:78-81 | flips the 24h flag only, and notifies |
| DigitalClockModel.ToggleTimeFormatInvolution | src/models/DigitalClockModel.ts:78-81 | two switches restore the clock; time and edit mode never change |
| AnalogClockModel.New | src/models/AnalogClockModel.ts:4-6 | an analog clock has kind analog, starts idle and carries the given time |
| AnalogClockModel.Tick | src/models/AnalogClockModel.ts:11-18 | while editing: no change and no notification; when idle: the one-second advance and exactly one notification |
| AnalogClockModel.TicksSuppressedWhileEditing | src/models/AnalogClockModel.ts:11-15 | any number of ticks leaves a clock being edited unchanged |
| AnalogClockModel.NextEditMode | src/models/AnalogClockModel.ts:20-24 | never yields hours; yields idle exactly from a non-idle mode |
| AnalogClockModel.ToggleEditMode | src/models/AnalogClockModel.ts:20-24 | always notifies and changes only the edit mode |
| AnalogClockModel.TogglesFromIdle | src/models/AnalogClockModel.ts:20-24 | from idle, toggles alternate idle and minutes, so hours is never reached |
| AnalogClockModel.TickResumesAfterEditing | src/models/AnalogClockModel.ts:11-24 | a tick in minutes mode is ignored; after toggling back to idle, the next tick advances and notifies |
| AnalogClockModel.IncrementTimeByMinutes | src/models/AnalogClockModel.ts:26-28 | always fails with "To implement" |
| Observer.AddObserver | src/core/Observer.ts:24-26 | appends at the end, length grows by one, duplicates allowed |
| Observer.RemoveObserver | src/core/Observer.ts:33-38 | absent observer: list unchanged, null returned; present: the first identical entry is removed and returned, the rest keep their order, and exactly one copy leaves the multiset |
| Observer.AddThenRemove | src/core/Observer.ts:24-38 | adding an unregistered observer then removing it gives back the original list |
| Observer.RemoveKeepsDuplicate | src/core/Observer.ts:33-38 | an observer added twice is still registered after one removal |
| Observer.NotifyObservers | src/core/Observer.ts:44-48 | one `update(self)` per list entry, in list order; the list is only read |
| ClocksModel.Empty | src/models/ClocksModel.ts:11 | the collection starts empty and well formed |
| ClocksModel.AddClock | src/models/ClocksModel.ts:17-27 | appends exactly one clock of the requested kind with a fresh identity, idle and with the light off; earlier entries unchanged; identities stay distinct |
| ClocksModel.RemoveClock | src/models/ClocksModel.ts:35-44 | an absent clock is a no-op; a present one is spliced out at its index and reported as disposed, the others keep their order, and its identity is gone |
| ClocksModel.ForEachDigital | src/models/ClocksModel.ts:57-88 | the operation is applied to every digital clock and no analog one; identities and order are kept; it reports the digital identities in order, and the ones whose transition notified, in collection order: none when no call notifies, all of them when every call does |
| ClocksModel.ResetAllClocks | src/models/ClocksModel.ts:57-64 | `reset` is applied to exactly the digital clocks, in order; analog clocks, length and order are untouched |
| ClocksModel.ToggleAllLights | src/models/ClocksModel.ts:69-76 | every digital light flips once; exactly the digital clocks notify, in collection order; analog clocks, length and order are untouched |
| ClocksModel.ToggleAllLightsTwice | src/models/ClocksModel.ts:69-76 | toggling all lights twice restores the collection |
| ClocksModel.ResetAllLights | src/models/ClocksModel.ts:81-88 | every digital light ends off; exactly the clocks that were lit notify; analog clocks, length and order are untouched |
| ClocksModel.ResetAllLightsSettles | src/models/ClocksModel.ts:81-88 | after one call no digital light is on, and a second call changes nothing and notifies no clock |
| TimeTickerService.AtMostOneArmed | src/services/TimeTickerService.ts:46-60 | a consistent service has at most one interval armed |
| TimeTickerService.ClearTimers | src/services/TimeTickerService.ts:46-51 | no stored interval afterwards; nothing armed remains; a no-op when none was stored |
| TimeTickerService.Start | src/services/TimeTickerService.ts:57-60 | clears before arming, so exactly one interval is armed, the stored one |
| TimeTickerService.Stop | src/services/TimeTickerService.ts:91-93 | nothing stays armed, and stopping again changes nothing |
| TimeTickerService.Create | src/services/TimeTickerService.ts:15-17 | a new service has no callbacks and one armed interval |
| TimeTickerService.GetInstance | src/services/TimeTickerService.ts:24-29 | an error with the source's message iff `initialize` has not run; otherwise the stored instance |
| TimeTickerService.Initialize | src/services/TimeTickerService.ts:35-40 | creates the instance only when there is none: a fresh one with no callbacks and exactly one armed interval; an existing instance is returned as it is |
| TimeTickerService.InitializeIdempotent | src/services/TimeTickerService.ts:35-40 | a second `initialize` returns the same instance and arms nothing; `getInstance` then succeeds |
| TimeTickerService.Subscribe | src/services/TimeTickerService.ts:66-68 | appends the callback at the end, one longer, earlier entries unchanged; timers untouched |
| TimeTickerService.Without | src/services/TimeTickerService.ts:75-77 | the filter drops every copy of the callback, keeps every other callback's count, and is the identity when the callback is absent |
| TimeTickerService.WithoutAppend | src/services/TimeTickerService.ts:75-77 | the filter distributes over concatenation, so the remaining callbacks keep their order |
| TimeTickerService.Unsubscribe | src/services/TimeTickerService.ts:74-78 | removes every occurrence, keeps the others, is a no-op when absent, keeps the order of the remaining callbacks (the filter `Without`), and leaves the timers untouched |
| TimeTickerService.UnsubscribeUndoesRepeatedSubscribe | src/services/TimeTickerService.ts:66-78 | one unsubscribe undoes two subscriptions of the same new callback |
| TimeTickerService.NotifySubscribers | src/services/TimeTickerService.ts:84-86 | invokes each callback once, in list order |
| TimeTickerService.RunConsistent | src/services/TimeTickerService.ts:46-93 | any sequence of subscribe, unsubscribe and stop keeps the service consistent with its timers |
| TimeTickerService.RunKeepsOneInterval | src/services/TimeTickerService.ts:35-93 | after `initialize` and any later operations, at most one interval is armed |
| Matrix3x3.Values | src/core/math/Matrix3x3.ts:11-13 | `getValues` gives three rows of three entries holding the matrix entries |
| Matrix3x3.Make | src/core/math/Matrix3x3.ts:4-9 | succeeds iff there are 3 rows and none has a length other than 3, with the source's error message otherwise; the matrix holds the given entries |
| Matrix3x3.MakeValues | src/core/math/Matrix3x3.ts:4-13 | building from `getValues` gives back the same matrix |
| Matrix3x3.Identity | src/core/math/Matrix3x3.ts:15-21 | ones on the diagonal and zeros elsewhere; affine; fixes every point |
| Matrix3x3.Translation | src/core/math/Matrix3x3.ts:23-29 | affine; moves every point by (tx, ty) |
| Matrix3x3.Scale | src/core/math/Matrix3x3.ts:41-47 | affine; scales every point by (sx, sy) |
| Matrix3x3.CellIsSum | src/core/math/Matrix3x3.ts:56-59 | the loop body's three-term entry equals the sum over k of a[i][k]·b[k][j] |
| Matrix3x3.Multiply | src/core/math/Matrix3x3.ts:49-64 | entry [i][j] is the sum over k of a[i][k]·b[k][j], and the result passes the constructor's 3x3 check |
| Matrix3x3.IdentityNeutral | src/core/math/Matrix3x3.ts:15-64 | identity is a left and right neutral element of the product |
| Matrix3x3.TranslationsCompose | src/core/math/Matrix3x3.ts:23-64 | translation(a,b)·translation(c,d) = translation(a+c, b+d) |
| Matrix3x3.ScalesCompose | src/core/math/Matrix3x3.ts:41-64 | scale(a,b)·scale(c,d) = scale(a·c, b·d) |
| Matrix3x3.AffineClosed | src/core/math/Matrix3x3.ts:49-64 | the product of two matrices with bottom row [0,0,1] has bottom row [0,0,1] |
| Matrix3x3.MultiplyComposes | src/core/math/Matrix3x3.ts:49-64 | with an affine right factor, the product maps a point as the right factor then the left one |
| DigitalClockView.DisplayHours | src/views/DigitalClockView.ts:103-108 | 24h shows the model hour; AM/PM shows hours 0–12 unchanged and later hours minus 12, so at most 12; the hour modulo 12 is kept |
| DigitalClockView.DecimalString | src/views/DigitalClockView.ts:155 | `toString` of a clock unit gives decimal digits without a leading zero, one digit below 10 and two below 100 |
| DigitalClockView.ParseDecimalString | src/views/DigitalClockView.ts:155 | reading the decimal string back gives the number |
| DigitalClockView.PadStart | src/views/DigitalClockView.ts:155 | `padStart` reaches the width with fill characters and keeps the string as its suffix |
| DigitalClockView.PadUnit | src/views/DigitalClockView.ts:154-156 | for 0–99 a two-character string with a leading '0' iff the value is below 10; for every value the view passes (below 100), read back as a number it is the value |
| DigitalClockView.TimeFormatIndicator | src/views/DigitalClockView.ts:162-169 | empty iff 24h; otherwise "AM" iff the hour is below 12 and "PM" iff it is at least 12 |
| DigitalClockView.EditModeElement | src/views/DigitalClockView.ts:50-54 | idle maps to no element; hours and minutes map to the hours and minutes displays, and distinct editing modes map to distinct elements |
| DigitalClockView.BlinkingElements | src/views/DigitalClockView.ts:127-140 | idle blinks nothing, hours mode only the hours display, minutes mode only the minutes display |
| DigitalClockView.BlinkMarksEditedUnit | src/views/DigitalClockView.ts:50-54 | the display that blinks is exactly that of the unit `increaseValue` changes |
| DigitalClockView.AmPmDisplayDeterminesHour | src/views/DigitalClockView.ts:103-169 | in AM/PM format, the shown hour with the indicator identifies the hour of the day |

## Left out

- `Matrix3x3.rotation` is left out. It needs `Math.cos`/`Math.sin` and floating point, and the matrix laws are stated over exact reals.
- Wall-clock time is left out. The `new Date()` snapshot is the `TimeOfDay` parameter `now`.
- Time-zone offsets are left out: the constructor argument `timeZoneOffsets` and the `timeZoneOffset` of `addClock`. Nothing in the modelled code reads them.
- `incrementTimeByOneSecond` (the analog advance) and the digital `reset` are left out. Their bodies are not part of this model. They are the function parameters `advance` and `reset`, with no assumptions about carry or time zones.
- `dispose` and `addEventListenerToRemoveButton` are left out. Their bodies are not part of this model. `RemoveClock` reports the identity it disposes.
- ClockModel.Init: the base class holds no light or format flag. The model gives these fields the digital defaults: light off, 24h format.
- The base `ClockModel` does not extend `Observable` in its source file, so its transitions return no notification flag.
- The modelled source files do not type-check against each other. `ClockModel` takes no constructor arguments, while the subclasses call `super(type, tz)`. `ClocksModel.addClock` builds a plain `ClockModel` for both kinds. The model builds the clock variant that `addClock` was asked for.
- `getClocks` is not a separate member. It returns the collection's `entries` field.
- Real `setInterval`/`clearInterval` timing is left out. So are the one-second period and the drift. Only the table of armed intervals is modelled.
- Exceptions thrown by tick callbacks are left out. The model's callbacks are identities, and notification is the list of callbacks invoked.
- Observer.NotifyObservers: notifies a snapshot of the list. The source iterates the live array (src/core/Observer.ts:45), so an `update` that adds or removes observers on the same observable would change which entries are visited. No `update` in the program does this, so the model does not represent it.
- Matrix3x3.Values: `getValues` hands out the internal array (src/core/math/Matrix3x3.ts:11-13), so a caller could reshape a built matrix. The model's matrix is an immutable record of nine entries, and aliasing is not modelled; nothing in the program mutates the returned array.
- ClocksModel.Wf: `getClocks` hands out the internal array (src/models/ClocksModel.ts:50-52), so a caller could break well-formedness. Aliasing is not modelled; nothing in the program mutates the returned array.
- DigitalClockView.DecimalString: JavaScript writes numbers from 1e21 up in exponent form ("1e+21"). This form is not modelled; `DecimalString` and `PadUnit` give plain digits for every natural number. The view only passes clock units below 60 (src/views/DigitalClockView.ts:109-111).
- `setTimeZoneOffset`, which the view calls (src/views/DigitalClockView.ts:71), is left out: no source file of this model defines it.
- All DOM work is left out: element lookup, event listeners, `innerHTML`, `setAttribute` and `classList`. Only the pure display helpers of `DigitalClockView` are modelled.
- SVG asset loading, the bootstrap, the build configuration and the controllers are left out. The controllers only delegate to the models.
