# Pebble countdown timer — Dafny model

This project models the controller of a Pebble watch countdown timer
(`src/timer.c`). The controller is a single-threaded state machine. It has
four modes: `DONE`, `SETTING`, `PAUSED` and `COUNTING_DOWN`. It keeps a
configured duration (`total_seconds`) and the seconds left (`current_seconds`),
plus a setting cursor (hour, minute or second) with a blink flag. The select
button takes three gestures:

- a click moves the cursor while setting, and otherwise starts or pauses;
- a long press enters or leaves setting;
- a double click resets.

Up and down change the duration by the cursor's unit, and only while setting.
A 1 Hz tick is dispatched on the mode.

The C globals become one immutable record, `TimerState.Timer`. Every handler
becomes a pure function from record to record (module `Handlers`). The
device's effects are counters in the record:

- `alarms` counts vibration requests;
- `textUpdates` counts re-sets of the countdown text;
- `markerRedraws` counts marker-layer dirty marks.

`shown` is the broken-down duration held in the countdown text buffer.
`lastSet` is the memo of `update_countdown`.

Modules:

- `Clock`: C's truncating division and the hours/minutes/seconds split.
- `TimerState`: modes, units, the record, the initial globals, and the
  reachable-state invariant `Inv`.
- `UnitMarker`: the marker's position and visibility rule.
- `Handlers`: one function per C handler.
- `Events`: the click configuration (gesture to handler), `Step` and `Run`.
- `Properties`: lemmas over single events and event sequences.

Two edge cases of the code are kept as written:

- Only `== 0` is tested after the decrement. A countdown started with nothing
  left therefore runs below zero for ever and never alarms
  (`Properties.CountdownFromZeroNeverAlarms`). This happens with a zero
  duration, or when select is clicked right after an alarm, before the next
  tick reloads the duration. The invariant only claims
  `current <= total`, never `current >= 0`.
- The split uses C division, which truncates toward zero. `Clock.CDiv` writes
  this out, so the split of a negative count has nonpositive fields.

Up and down are both range-checked against `[0, 100 hours)`
(src/timer.c:144). A step that would leave that range is rejected and
changes nothing.

One behaviour of the code is recorded rather than corrected: leaving setting
by a long press does not mark the marker layer dirty, so the marker becomes
hidden with no redraw request
(`Properties.ExitSettingHidesMarkerWithoutRedraw`). Whether the device then
redraws it anyway depends on the display library, which is not part of this
model.

## Model

| member | source | states |
|---|---|---|
| `TimerState.Initial` | src/timer.c:40-59 | the globals start stopped with 300 of 300 seconds (in range), the memo at -1 so nothing counts as formatted yet, the cursor on the minute enumerator (1), blink on, and no effect requested |
| `TimerState.Index` | src/timer.c:53-57 | the unit enumerators HOUR, MINUTE and SECOND are the values 0, 1 and 2, all below 3 |
| `TimerState.UnitAt` | src/timer.c:119 | the value `(unit + 1) % 3` is turned back into a unit whose enumerator is that value |
| `TimerState.IndexRoundTrip` | src/timer.c:53-57 | enumerator then unit gives back the unit, so the three enumerator values name three distinct units |
| `Clock.CDiv` | src/timer.c:69-70 | C division truncates toward zero: the remainder lies in [0, b) for a nonnegative dividend and in (-b, 0] for a negative one |
| `Clock.Split` | src/timer.c:68-71 | the hours/minutes/seconds split recomposes to the count for every integer; for a count in [0, 100 h) it is canonical, with minutes and seconds below 60 and hours below 100, so it fits the two-digit " %T" field; a negative count gives nonpositive fields |
| `Clock.CanonicalSplitUnique` | src/timer.c:68-73 | any canonical breakdown of a count is the one the split computes, so on [0, 100 h) the split is the inverse of recomposition |
| `UnitMarker.MarkerStart` | src/timer.c:104-105 | the marker's left edge `8 + 46*unit` leaves the whole 32-pixel bar within the 144-pixel screen |
| `UnitMarker.Marker` | src/timer.c:104-107 | the marker is drawn exactly when the mode is setting and the blink flag is set, starting at the cursor unit's slot `8 + 46*unit`, inside the screen |
| `UnitMarker.SlotsOrderedAndDisjoint` | src/timer.c:104-105 | the hour, minute and second bars lie left to right and do not overlap |
| `Handlers.UpdateCountdown` | src/timer.c:61-78 | when the count equals the memo, nothing changes; otherwise the buffer recomposes to the count (canonically, for a count in range), one text update is issued, and the memo becomes the count; no control state is touched |
| `Handlers.Startup` | src/timer.c:275 | the first formatting from the initial globals (stopped, 300 of 300 seconds) shows 0:05:00 and establishes the invariant |
| `Handlers.ToggleSettingMode` | src/timer.c:88-99 | long press: from setting it only switches to done; from any other mode it reloads the remaining seconds from the total, puts the cursor on minutes, enters setting and requests one marker redraw; it keeps the invariant |
| `Handlers.SelectPressed` | src/timer.c:117-129 | click: while setting, the cursor index advances by one modulo 3, the blink restarts visible and a redraw is requested; otherwise done and paused start counting and counting pauses; the durations, the text and the memo are untouched; it keeps the invariant |
| `Handlers.ScaledStep` | src/timer.c:137-141 | the fall-through multipliers scale the direction by exactly 3600, 60 or 1 for hour, minute or second |
| `Handlers.IncrementTime` | src/timer.c:135-150 | outside setting nothing changes; while setting, a step that stays in [0, 360000) moves the total by direction times the unit's seconds and the remaining seconds and memo follow; a step that would leave the range changes nothing at all, with no clamping |
| `Handlers.ButtonUp` | src/timer.c:153-155 | up adds one unit while setting when the result is in range, and otherwise changes nothing |
| `Handlers.ButtonDown` | src/timer.c:157-159 | down removes one unit while setting when the result is in range, and otherwise changes nothing |
| `Handlers.ResetTimer` | src/timer.c:161-167 | double click: outside setting it stops the timer with the remaining seconds equal to the total; while setting it changes nothing |
| `Handlers.SecondCountingDown` | src/timer.c:199-208 | a counting tick takes exactly one second off; the alarm is requested and the mode becomes done exactly when the result is zero |
| `Handlers.SecondWaiting` | src/timer.c:210-213 | a tick while stopped reloads the remaining seconds from the total, and changes nothing when they are already in step |
| `Handlers.SecondSetting` | src/timer.c:215-218 | a tick while setting flips the blink flag, requests one marker redraw and changes nothing else |
| `Handlers.SecondTick` | src/timer.c:236-249 | the tick is dispatched on the mode: done reloads, counting decrements and alarms exactly at zero, setting only blinks, paused changes nothing |
| `Events.ClickConfig` | src/timer.c:173-192 | select's click goes to the select handler, its long press to the setting toggle and its double click to the reset; up and down bind only their click, each to its own handler; no other gesture is bound |
| `Properties.StepDispatch` | src/timer.c:173-191 | each of the five bound gestures and the tick runs exactly its own handler, and every unbound press leaves the state unchanged |
| `Events.Step` | src/timer.c:173-191 | one event: the total changes only while setting, and up/down outside setting change nothing |
| `Properties.StepPreservesInv` | src/timer.c:143-148 | every event keeps the total in range, the remaining seconds at most the total (equal while setting) and the text in step with them |
| `Properties.RunPreservesInv` | src/timer.c:42-43 | every event sequence keeps that invariant |
| `Properties.ReachableStatesSatisfyInv` | src/timer.c:42-44 | every state reachable from start-up satisfies the invariant |
| `Properties.RemainingOnlyDecreasesWhenCountingOrSetting` | src/timer.c:199-200 | the remaining seconds drop only by one counting tick or a down press while setting |
| `Properties.AlarmOnlyOnCompletion` | src/timer.c:204-207 | an event requests the alarm at most once, and does so if and only if it is a counting tick at one second left; that tick also stops the timer |
| `Properties.ThreeSelectsCycleCursor` | src/timer.c:119 | three clicks while setting bring the cursor back to its unit |
| `Properties.EnterThenExitSetting` | src/timer.c:88-99 | a long press in and out with nothing between keeps the total, ends stopped with the remaining seconds reloaded and the cursor on minutes |
| `Properties.ResetReloads` | src/timer.c:161-167 | a double click outside setting stops with the remaining seconds equal to the total, and while setting does nothing |
| `Properties.CountdownTicks` | src/timer.c:199-207 | from n > 0, each of fewer than n ticks takes exactly one second off without stopping or alarming |
| `Properties.CountdownCompletes` | src/timer.c:199-207 | from n > 0, n ticks reach zero, stop the timer and request the alarm exactly once |
| `Properties.CountdownFromZeroNeverAlarms` | src/timer.c:200-204 | a countdown started at zero or below runs negative for ever and never alarms |
| `Properties.NoAlarmWhileDone` | src/timer.c:238-240 | ticks while stopped keep it stopped and never re-request the alarm |
| `Properties.IdleTickIsSilent` | src/timer.c:62-64 | a stopped tick with the count already in step issues no text update and changes nothing |
| `Properties.MarkerRedrawnOnCursorChange` | src/timer.c:119-121 | any change of cursor or blink comes with exactly one marker redraw request, and only events that end in setting request a redraw |
| `Properties.ExitSettingHidesMarkerWithoutRedraw` | src/timer.c:89-91 | leaving setting by a long press hides a visible marker without requesting a redraw, and changes only the mode |
| `Properties.SixMinuteScenario` | src/timer.c:135-150 | from 5:00, entering setting, one up on minutes gives 6:00; after leaving and starting, 360 ticks stop the timer with the alarm requested once |

## Left out

- Window, text layer, font and resource setup in `handle_init`, and the
  `pbl_main` event loop, are left out. They are UI plumbing. Only the first
  `update_countdown` call is kept, as `Handlers.Startup`.
- Drawing is left out: the `graphics_draw_line` loop, `layer_mark_dirty` and
  `text_layer_set_text` are device effects. They appear only as the
  `markerRedraws` and `textUpdates` counters.
- `string_format_time` is left out: it belongs to a library that is not part
  of this model. The countdown text is modelled as the broken-down duration
  it formats.
- The wall-clock line (`update_time`, its 12h/24h choice and the
  minute-changed test in the tick handler) is left out for the same reason.
- Gesture recognition is left out: long-press delay, repeat interval,
  double-click counts and the empty long-release handler belong to the input
  layer. Events arrive already disambiguated.
- The contents of the vibration pattern are left out. The alarm is an opaque
  request, counted in `alarms`.
- Handlers.IncrementTime: does not model 32-bit overflow of `direction * 3600`.
  The only callers pass +1 or -1, where no overflow can happen.
- Handlers.SecondCountingDown: does not model 32-bit wrap-around of a
  countdown that runs below zero. Wrap-around would take about 68 years of
  ticks.
