# Orchid greenhouse monitor — a Dafny model

The monitor is a small Node.js server plus browser scripts for an orchid greenhouse.
A sensor publishes humidity and temperature over MQTT. The server keeps the latest
reading in one cell (`latest_data`). It can also generate synthetic readings on a
timer (the "simulation"). Two dashboards poll the latest reading and classify it,
and a third page keeps a weekly watering calendar in the browser's `localStorage`.

This project models the logic inside that plumbing and proves what it does:

- `Simulator` (server.js): the synthetic reading generator and its four modes, and
  how each simulation tick picks a mode from the timer's pattern and its
  alternation flag.
- `Server` (server.js): the server state as a class. It holds the `latest_data`
  cell, `simulationConfig`, `simulationIntervalId` and the runtime's live
  interval timers. It has the MQTT message handler, `startSimulation`, the tick
  callback, `stopSimulation`, `POST /api/simulate` and `GET /api/simulate/status`.
- `Dashboard` (public/js/app.js): the issue list of `updateStatusCard`, the status
  card as a class, the history table's `isOptimal`, the save button's `parseFloat`
  check, the dispatch on the `/api/check` answer, and the manual random button.
- `LegacyDashboard` (js/app.js): the older page's null/NaN guard and its single
  alert predicate, with narrower bands.
- `Watering` (public/js/config_riego.js): the schedule as an ordered list of
  day/entry properties. It covers `calculateNextWatering` as a loop, its label,
  `checkWateringTime`, the form's schedule builder, `removeScheduleDay`,
  `loadSchedule`/`saveSchedule` and the capped `addToHistory` log, with
  `localStorage` as a class holding a map from key to text.
- `JsValues` and `JsText`: the JavaScript semantics the above depend on. These are
  truthiness and `||`, `Number(v)`, `toFixed` rounding, `String(n)`,
  `padStart(2, '0')`, `parseInt(s, 10)` and `parseFloat`. The text conversions
  come with their round trips: `String(n)` read back, padding read back,
  `parseInt(String(n))` and `parseFloat(x.toFixed(2))`.
- `Consistency`: how the simulator's bands read on the two dashboards.

Inputs the code takes from the environment are parameters:

- `Math.random()` is a sequence of draws in [0, 1), consumed in source order.
- `Date` is a millisecond timestamp for the server. For the watering page it is
  (day of week 0..6, hour, minute).
- `JSON.stringify`/`JSON.parse` of stored values are a `Codec` of functions.
- `Number()` of a string is a function parameter.
- A timer firing is an explicit `Tick` call.

A few facts about the code that shape the model:

- `updateStatusCard` checks humidity-low, humidity-high, temperature-low and
  temperature-high, in that order.
- A simulation tick stores its reading with `source: 'server-sim'`. An MQTT
  payload keeps whatever `source` it carried.
- The MQTT handler checks no field. A parsed object replaces `latest_data`,
  stamped with the arrival time. A parsed scalar replaces it unstamped, because
  the property write on a primitive is ignored. A parsed `null` changes nothing,
  because the timestamp write on it throws.
- server.js has no durable store, no in-memory ring buffer, no configurable alert
  policy, and no `/api/readings`, `/api/check` or `/api/readings/recent` handler.
  The database models are always `null`, so no server behaviour is modelled for
  them. Only the page's handling of a `/api/check` answer is modelled.

## Model

| member | source | states |
|---|---|---|
| JsValues.FixedUnitsBetween | server.js:126-133 | rounding `x.toFixed(d)` of a value in an integer interval [lo, hi] stays within lo·10^d .. hi·10^d |
| JsValues.FieldReading | js/app.js:22-23 | `data.x != null ? Number(data.x) : null` is null exactly for undefined and null, and a number is kept as is |
| JsValues.ToNumber | public/js/app.js:50-51 | `Number(v)`: a number is kept, a boolean is 1 or 0, null is 0, undefined and objects are NaN, a text goes through the runtime conversion |
| JsValues.Truthy | server.js:186-187 | JavaScript truthiness: undefined, null, false, 0, NaN and the empty text are falsy |
| JsValues.Or | server.js:186-187 | the JavaScript or-operator: a when a is truthy, otherwise b |
| JsValues.FixedUnits | server.js:126-133 | the units `toFixed` prints are within half a unit of the exact scaled value |
| JsValues.DrawBetween | server.js:119-121 | `Math.random() * (max - min) + min` lies in [min, max] for a draw in [0, 1) |
| JsText.NatText | public/js/config_riego.js:170 | `String(n)` is a non-empty run of decimal digits |
| JsText.PadStart2 | public/js/config_riego.js:170 | `padStart(2, '0')` gives at least two digits |
| JsText.FixedText2 | public/js/app.js:120 | `x.toFixed(2)` of a non-negative value of u hundredths: the whole part, a point and two padded digits |
| JsText.Join | public/js/app.js:184 | `parts.join(sep)`: the parts with sep between neighbours |
| JsText.IndexOf | public/js/config_riego.js:88 | the separator index for `split(':')`: no separator before it, the separator at it when found |
| JsText.NatTextValue | public/js/config_riego.js:170 | the digits of `String(n)` read back as n |
| JsText.PadStart2Value | public/js/config_riego.js:170 | a padded number below 100 is exactly two digits reading back as itself |
| JsText.DigitRunOfDigits | server.js:187 | `parseInt` stops its digit run exactly where the digits end |
| JsText.ParseIntOfNatText | server.js:187 | `parseInt(String(n) + rest, 10) === n` when rest does not continue the digits |
| JsText.ParseFloatOfDecimal | public/js/app.js:143-144 | `parseFloat("<digits>.<digits>")` is the integer part plus the fraction |
| JsText.ParseFloatOfFixedText2 | public/js/app.js:120 | `parseFloat(x.toFixed(2))` gives back exactly the rounded hundredths |
| JsText.ParseIntText | server.js:187 | `parseInt(s, 10)` of a text is NaN or a whole number |
| JsText.ParseFloatText | public/js/app.js:143-144 | `parseFloat(s)` of a text whose first non-blank character is a digit is a number |
| JsText.ParseIntValue | server.js:187 | `parseInt(v, 10)` is NaN or a whole number; a text goes through the text parse, and anything but a number or a text is NaN |
| Simulator.TenthsInBand | server.js:126-133 | `parseFloat(randomBetween(lo, hi).toFixed(1))` lies in the closed band [lo, hi] |
| Simulator.RandomBetween | server.js:119-121 | `randomBetween(min, max)` lies in [min, max] for a draw in [0, 1) |
| Simulator.Tenths | server.js:126-133 | `parseFloat(x.toFixed(1))`, the rounded tenths as a number; bounded by `TenthsInBand` |
| Simulator.Generate | server.js:123-140 | "optimal", "alert_low", "alert_high" draw from their bands; any other mode yields a reading in one of the three bands, with at most four draws |
| Simulator.UnknownModeIsRandom | server.js:134-137 | every unrecognised mode behaves exactly as "random" |
| Simulator.RandomModeBand | server.js:134-136 | a "random" reading is optimal iff the first draw is below 0.5, low iff the first is not and the second is, high otherwise |
| Simulator.TickMode | server.js:147-159 | one tick consumes at most one draw to choose its mode |
| Simulator.NextToggle | server.js:148-150 | the flag after a tick: only "alternate" flips it (used by `UnknownPatternIsRandom` and `AlternateModeAt`) |
| Simulator.TickModes | server.js:146-159 | one mode per firing of a timer, in firing order, the flag carried from tick to tick |
| Simulator.TickSample | server.js:161 | every tick produces a reading inside one of the three bands |
| Simulator.AlwaysOptimalTick | server.js:153-154 | "always_optimal" ticks always land in the optimal band |
| Simulator.AlwaysAlertTick | server.js:155-156 | "always_alert" ticks never choose "optimal" and land in an alert band |
| Simulator.UnknownPatternIsRandom | server.js:157-158 | an unrecognised pattern ticks exactly as "random" and never flips the flag |
| Simulator.AlternateModeAt | server.js:145-150 | under "alternate", tick i chooses "optimal" iff i's parity matches the starting flag, and an alert mode otherwise |
| Server.RequestedPattern | server.js:186 | the pattern used is always truthy |
| Server.RequestedInterval | server.js:187 | `parseInt` of the interval, 5000 when it is falsy, is a whole number of milliseconds or NaN |
| Server.ClearInterval | server.js:176 | `clearInterval(id)` removes exactly the timers with that id |
| Server.DefaultInterval | server.js:187 | an absent, empty, zero or false interval becomes 5000 |
| Server.IntervalFromText | server.js:187 | a decimal interval text is taken at its value |
| Server.PatternDefault | server.js:186 | a falsy pattern becomes "alternate"; a truthy one is kept |
| Server.ServerState.constructor | server.js:24-28 | the server boots with the 81.5 % / 22.0 °C placeholder, stopped, with the default configuration |
| Server.SeedData | server.js:24-28 | the placeholder reading 81.5 % and 22.0 °C, stamped at boot, with no source |
| Server.ServerState.DatosActuales | server.js:81 | `/api/datos_actuales` answers `latest_data` unchanged |
| Server.ServerState.SimulateStatus | server.js:197-199 | the status answer carries `enabled`, the whole configuration and `latest_data` |
| Server.ServerState.Stop | server.js:174-180 | afterwards no timer is live, the id is null and the configuration is the default; the invariant holds |
| Server.ServerState.Start | server.js:142-146 | the previous timer is cleared, so exactly one timer is live: a fresh id, the requested configuration and its flag true; the id counter advances by one |
| Server.ServerState.Tick | server.js:146-171 | a tick stores the generated reading stamped now with source "server-sim"; only "alternate" flips the flag |
| Server.SimulatedData | server.js:161-163 | the stored tick reading: the generated values, stamped with the tick time, with source "server-sim" |
| Server.ServerState.OnMessage | server.js:46-64 | a parsed object replaces `latest_data` stamped now; a scalar replaces it unstamped; a parse failure or `null` leaves it unchanged |
| Server.ServerState.Simulate | server.js:182-195 | when `enable === true`, exactly one timer is live: a fresh id, the defaulted pattern and interval, its flag true, and the reply carries the stored configuration; otherwise it stops, with no timer and the default configuration |
| Server.SimulateDefaultFirstTick | server.js:184-189 | a POST with `enable: true` and no pattern on a fresh server starts an alternating timer whose first reading lies in the optimal band |
| Server.AlternateTwoTicks | server.js:145-150 | on a fresh server, the first "alternate" tick is optimal and the second is an alert reading |
| Server.MalformedPayloadIgnored | server.js:61-63 | a payload that does not parse leaves what `/api/datos_actuales` answers as it was |
| Dashboard.CollectIssues | public/js/app.js:18-22 | each issue appears iff its strict bound is crossed, in fixed order, at most two, none iff the history row would be optimal |
| Dashboard.IsOptimalRow | public/js/app.js:232-238 | the history row is optimal iff both parsed values are numbers within the closed bounds 15..30 °C and 50..90 % |
| Dashboard.OptimalRowBounds | public/js/app.js:236-238 | a NaN temperature or humidity is never optimal, and the bounds themselves are optimal |
| Dashboard.StatusCard.Update | public/js/app.js:11-36 | unreadable values change nothing; otherwise the card is an alert listing exactly the issues whose strict bounds h and t cross, in check order and joined by a vertical bar, or optimal with h and t exactly when `isOptimal` holds |
| Dashboard.Readable | public/js/app.js:17 | the guard `h !== null && t !== null && !isNaN(h) && !isNaN(t)` |
| Dashboard.StatusCard.FetchAndUpdate | public/js/app.js:50-58 | a fetched answer goes through the null/NaN guard; unreadable values change nothing; readable ones leave the card alert, with exactly the issues their bounds cross, or optimal iff `isOptimal` |
| Dashboard.DryReadingAlert | public/js/app.js:17-28 | a reading of 40 % and 20 °C turns a fresh card into an alert with the single issue "Humedad baja" |
| Dashboard.SaveClick | public/js/app.js:143-155 | the save posts nothing iff `parseFloat` of either text is NaN, and otherwise posts the parsed values |
| Dashboard.RandUnits | public/js/app.js:119-121 | `randBetween(lo, hi)` rounds to a number of hundredths within [lo·100, hi·100] |
| Dashboard.RandText | public/js/app.js:119-121 | the text `randBetween` returns: the random hundredths printed by `toFixed(2)` |
| Dashboard.RandTextValue | public/js/app.js:119-121 | the text `randBetween` prints parses back as a number within [lo, hi] |
| Dashboard.ManualValuesAlwaysPost | public/js/app.js:125-155 | after the random button the save always posts, with temperature in [10, 40] and humidity in [20, 95] |
| Dashboard.CheckBanner | public/js/app.js:182-190 | "alert" joins an array of issues with ", ", says "Fuera de rango" when the length test fails (an empty array, an empty text, a number, a boolean), and throws for a missing or null field or a non-array with a positive length; "ok" shows the posted values; anything else shows the message, or the status when the message is falsy |
| Dashboard.Throws | public/js/app.js:184 | the alert branch throws exactly for a missing or null field, or a non-array whose `length` is positive |
| Dashboard.NonArrayIssuesOutOfRange | public/js/app.js:184 | an alert whose issues field has no positive length and is not an array says "Fuera de rango" |
| LegacyDashboard.Classify | js/app.js:25-48 | placeholders iff a value is missing or NaN; "¡ALERTA!" iff h<75, h>85, t<18 or t>24; the values shown are those read |
| LegacyDashboard.Show | js/app.js:9-48 | one answer of `/api/datos_actuales` goes through `data.x != null ? Number(data.x) : null` and then the classification |
| LegacyDashboard.OptimalIffInside | js/app.js:32 | a readable pair is optimal iff 75 ≤ h ≤ 85 and 18 ≤ t ≤ 24, and an alert otherwise |
| LegacyDashboard.BoundsAreOptimal | js/app.js:32 | the bounds 75, 85, 18 and 24 themselves classify as optimal |
| LegacyDashboard.NonObjectShowsLoading | js/app.js:22-23 | a payload that is not an object only shows the placeholders |
| Watering.Remove | public/js/config_riego.js:62 | deleting a day keeps only slots of other days |
| Watering.RemoveLookup | public/js/config_riego.js:59-63 | after deleting a day it is absent, and every other day's entry is unchanged |
| Watering.Lookup | public/js/config_riego.js:87 | `schedule[dia]` on the parsed object, the last property of a name winning |
| Watering.LookupFindsLast | public/js/config_riego.js:87 | a day is absent iff no property carries it; otherwise its entry is that of the last property carrying it |
| Watering.ClockTextOfParts | public/js/config_riego.js:170-172 | every well-formed "HH:MM" is the padded clock text of its own hours and minutes |
| Watering.ParseTime | public/js/config_riego.js:88-89 | `time.split(':').map(Number)` then `hours * 60 + minutes`, None standing for NaN |
| Watering.ParseClockText | public/js/config_riego.js:88-89 | the padded clock text of a time of day is well formed and `split(':').map(Number)` reads it as that minute of the day |
| Watering.ClockText | public/js/config_riego.js:170 | `horaActual`: the padded hour, a colon and the padded minute |
| Watering.DayDiff | public/js/config_riego.js:91-93 | the day difference lies in 0..7; it is 0 iff the day is today and its time is still ahead, 7 iff it is today and the time has passed, else (i − today) mod 7 |
| Watering.TimeOf | public/js/config_riego.js:87-89 | the minute of the day an enabled day waters at, None for a disabled or absent day or an unreadable time |
| Watering.Until | public/js/config_riego.js:91-95 | `totalMinDiff` of a day that takes part: the day difference in minutes plus the time difference |
| Watering.Diffs | public/js/config_riego.js:86-95 | `totalMinDiff` of each of the seven days, Sunday first, as the loop visits them |
| Watering.NextOf | public/js/config_riego.js:99-103 | the `nextWatering` object of the kept day: its name, its time text and its day difference |
| Watering.FirstMin | public/js/config_riego.js:97-104 | the kept index is one of the scanned days and passes the `> 0` test |
| Watering.ConsiderDay | public/js/config_riego.js:87-104 | one day replaces the best so far iff its minute difference is positive and strictly smaller |
| Watering.CalculateNextWatering | public/js/config_riego.js:74-106 | the loop ends with the `nextWatering` of the earliest day with the strictly smallest positive difference |
| Watering.FirstMinIsEarliestMinimum | public/js/config_riego.js:97-104 | nothing is kept iff no day is positive; the kept day is no further than any positive day and strictly nearer than every earlier one |
| Watering.UntilWithinWeek | public/js/config_riego.js:95 | for a well-formed time, the difference lies in [1, 7·1440] minutes |
| Watering.EnabledDaysArePositive | public/js/config_riego.js:97 | the `> 0` guard never discards an enabled day with a well-formed time |
| Watering.NoTies | public/js/config_riego.js:91-95 | two different days with well-formed times are never equally far away |
| Watering.NextWateringIsSoonest | public/js/config_riego.js:83-106 | with well-formed times, nothing is found iff no day is enabled with a readable time; otherwise every other such day is strictly further away |
| Watering.Capitalize | public/js/config_riego.js:109 | only the first letter changes, to its upper case |
| Watering.Announce | public/js/config_riego.js:108-119 | "Hoy" iff the difference is 0, "Mañana (Day)" iff 1, the capitalised day otherwise, and the empty message iff nothing is found |
| Watering.ShouldNotify | public/js/config_riego.js:169-172 | the notification test: today's entry exists, is enabled and its time is exactly the padded "HH:MM" of now |
| Watering.NotifyIffDueNow | public/js/config_riego.js:166-172 | for a well-formed entry, the exact "HH:MM" text match fires iff the entry's minute is the current minute |
| Watering.DueNowIsAWeekAway | public/js/config_riego.js:93 | at the minute a notification fires, the next-watering scan counts that day a full week away |
| Watering.Selection | public/js/config_riego.js:195-206 | the first n days yield at most n slots |
| Watering.Chosen | public/js/config_riego.js:199 | a day is chosen iff its box is checked and its time input is not empty |
| Watering.BuildSchedule | public/js/config_riego.js:192-206 | the loop builds the selection of the whole week, and `diasSeleccionados` is its size |
| Watering.SelectionLookup | public/js/config_riego.js:199-203 | a day is in the built schedule iff it is checked with a non-empty time, and then it is enabled with the typed time |
| Watering.SelectionEnabled | public/js/config_riego.js:200-203 | every day of a built schedule is enabled |
| Watering.EnabledSlots | public/js/config_riego.js:267 | the enabled filter keeps only enabled slots of the schedule, and keeps every enabled slot |
| Watering.EnabledSlotsAppend | public/js/config_riego.js:267 | the filter keeps key order: filtering a concatenation concatenates the filtered parts |
| Watering.EnabledSlotsCount | public/js/config_riego.js:267 | the filter keeps as many slots as the schedule has enabled flags |
| Watering.SlotTexts | public/js/config_riego.js:272 | each enabled day prints as `dia: time` |
| Watering.HistoryEntryOf | public/js/config_riego.js:269-273 | the entry's `dias` is the number of enabled flags in the schedule, and its date is the one given |
| Watering.EnabledSlotsOfEnabled | public/js/config_riego.js:267 | a schedule with every day enabled is kept whole by the filter |
| Watering.Pushed | public/js/config_riego.js:269-275 | the history after `unshift` and one `pop` when it grew past 50 |
| Watering.PushedKeepsCap | public/js/config_riego.js:269-275 | the new entry comes first, the old ones follow in order, one pop happens only on overflow, and a list within 50 stays within 50 |
| Watering.LoadSchedule | public/js/config_riego.js:9-19 | a missing or empty item, or one that does not parse, loads as the empty schedule; otherwise the parsed one |
| Watering.HistoryText | public/js/config_riego.js:265 | the stored history text, falling back to `'[]'`: an absent or empty item reads as the empty list |
| Watering.LocalStorage.SaveSchedule | public/js/config_riego.js:22-25 | only the schedule key is rewritten |
| Watering.LocalStorage.RemoveScheduleDay | public/js/config_riego.js:59-71 | the schedule is saved without the day iff it had that day; otherwise storage is unchanged |
| Watering.LocalStorage.AddToHistory | public/js/config_riego.js:264-277 | the parsed list (`[]` when absent) gets the new entry with one pop on overflow; an unparseable list throws and nothing is written |
| Watering.LocalStorage.Submit | public/js/config_riego.js:189-231 | with no chosen day nothing is stored; otherwise the built schedule is saved and its day count reported, then the history entry is pushed and stored with outcome `Saved` when the stored history parses, and only the schedule key changes, with outcome `HistoryUnreadable`, when it does not |
| Watering.SaveThenLoad | public/js/config_riego.js:9-25 | a schedule saved with a faithful codec loads back unchanged |
| Watering.SubmittedEntryCountsChosenDays | public/js/config_riego.js:264-273 | the history entry of a submitted schedule counts exactly the days chosen |
| Consistency.OptimalSampleShowsOptimal | server.js:125-127 | an optimal-band reading is optimal on the older page and raises no issue on the current one |
| Consistency.AlertSampleShowsAlert | server.js:128-133 | an alert-band reading is an alert on the older page |
| Consistency.LegacyOptimalIsOptimal | js/app.js:32 | what the older page calls optimal, the current page does too |
| Consistency.SeedShowsOptimal | server.js:24-28 | the boot placeholder is optimal on both pages |
| Consistency.AlertLowCanShowOptimal | server.js:128-130 | an "alert_low" reading (55.0 %, 16.0 °C) has no issue on the current page |
| Consistency.AlwaysOptimalShowsOptimal | server.js:153-154 | after an "always_optimal" tick both pages show the served reading as optimal |

## Left out

- The DOM writes, `innerHTML` templates, `toLocaleString` dates and console logging are left out. The model keeps only the value each page shows.
- `fetch`, `setInterval`/`setTimeout`, Express routing, static files and `app.listen` are left out. A timer firing is an explicit `Server.ServerState.Tick` call, and its `interval` is recorded but not used.
- The MQTT connection and subscription are left out; only the message handler's update of `latest_data` is modelled.
- `/api/config_riego` and `/api/historico` are left out: the first is a plain overwrite, the second always answers 503 because no database is configured.
- The database branches are left out because `Reading` and `RiegoConfig` are always `null`.
- `/api/readings`, `/api/check` and `/api/readings/recent` are called by the page but no server handler exists, so none is modelled.
- The Notification API, its permission flow and `displaySchedule`'s list rendering are left out: they are browser calls and display only.
- The `uncaughtException` and `unhandledRejection` handlers are left out; they only log.
- JsValues.FixedUnits: reals are exact, so binary floating-point rounding of `toFixed` and of `randomBetween` is not modelled. Infinities are left out too.
- JsText.ParseFloatText: exponents and "Infinity" are not accepted, and only ASCII white space (space, tab, line feed, vertical tab, form feed, carriage return) is skipped; a leading no-break space or line separator reads as NaN.
- JsText.ParseIntValue: a number whose `String()` form uses exponent notation, and an array interval, are not modelled; both read as their plain value or NaN.
- JsText.ParseIntText: only ASCII white space is skipped before the sign, as for `parseFloat`; a leading no-break space or line separator reads as NaN.
- JsValues.ToNumber: `Number()` of a string is a parameter, and an array field reads as NaN.
- Watering.ParseTime: `Number()` of a time piece accepts only ASCII digits, the empty piece being 0. Signs, decimals, white space and other numeric forms read as NaN.
- Watering.Entry: stored entries are taken to be `{enabled: boolean, time: string}`. A stored JSON document that is not an object, such as `null`, is treated as unparseable.
- Watering.Capitalize: only ASCII letters are upper-cased, which covers the seven day names.
- Watering.DayInput: a missing checkbox or time input counts as unchecked or empty.
- Dashboard.CheckBanner: the elements of an issues array are taken as texts; how `join` prints other element values is not modelled.
- Server.Message: a parsed array is treated as an object without the modelled fields, and fields other than `humedad`, `temperatura` and `source` are not tracked.
- Concurrency is left out: handlers run one at a time, as on the JavaScript event loop.
