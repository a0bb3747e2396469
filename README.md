# fenceora dashboard core, modelled in Dafny

The fenceora dashboard is a browser page that polls an ESP32 fence
controller for telemetry. It shows the readings and raises alerts. This
project models the logic at the heart of `script.js` and proves properties
of it:

- **The edge-triggered alert evaluator** (`Alerts`). It tracks five channels:
  capacitive, current, infrared, tamper and ultrasonic-critical. The
  ultrasonic channel is critical when the distance lies strictly between 0
  and 30. A channel raises an on-screen warning, and an email when email
  notifications are on, only on a clear-to-alarmed edge. It then overwrites
  its stored value with the current one. `Evaluate` is the pure
  specification: the fired channels in visiting order, plus the new stored
  state. `AlertMonitor` keeps `previousStates` as a field. Its
  `CheckForCriticalAlerts` visits the channels one by one and updates the
  field one entry at a time, as the dashboard does, and is proved equal to
  `Evaluate`. `Replay` runs the evaluator over a sequence of polls, which
  lets the model state properties of whole runs.
- **The rolling chart window** (`Chart`). `ChartData` holds the six series
  of the live chart. `UpdateChart` pushes one value onto each series, then
  shifts the oldest point off all six once the labels exceed
  `MaxDataPoints` (20). `Window` is the "newest 20" reference definition,
  and `RollWindow` proves that one update keeps the chart equal to it.
- **Single-reading rules** (`Readings`): the battery gauge clamp, and the
  temperature badge (above 35 °C, above 30 °C, or optimal). The badge is
  evaluated in the unit chosen in the settings.
- **Text lookup** (`Translation`): `t(key)` tries the current language,
  then English, then the key itself. An empty text counts as missing, and
  an unknown current language is a failed lookup.
- **The device address** (`DeviceAddress`):
  - the save button's rule: trim with the JavaScript whitespace set, refuse
    the empty string, then accept `^(\d{1,3}\.){3}\d{1,3}$`;
  - the store that holds the address;
  - the first step of every poll, which makes no request when no address
    is stored.

Notifications are values (`Notice`). Sending them is left to the caller.

## Model

| member | source | states |
|---|---|---|
| Alerts.UltrasonicCritical | script.js:1337 | the ultrasonic channel is critical iff the distance is above 0 and below 30, both bounds excluded |
| Alerts.UltrasonicBoundaries | script.js:1337 | both bounds are strict: 0 and 30 are not critical, 1 and 29 are |
| Alerts.Observe | script.js:1286-1351 | the stored state written after a visit holds, for every channel, that channel's current reading |
| Alerts.Evaluate | script.js:1266-1352 | a channel fires iff it reads true and was stored false; the fired channels come in visiting order, each at most once; the next state copies the snapshot whether or not anything fired |
| Alerts.NoticesFor | script.js:1273-1350 | a warning is raised for a channel iff it fired; its email, with that channel's subject, iff it fired and email notifications are on |
| Alerts.Notices | script.js:1273-1350 | the notices of the fired channels number exactly one warning per channel, plus one email each when email notifications are on |
| Alerts.ChannelNotices | script.js:1275-1284 | a fired channel raises its warning first, then, when email notifications are on, an email with the channel's subject |
| Alerts.OnRisingEdge | script.js:1273-1285 | a channel's visit raises something iff the channel reads true and was stored false, and then exactly that channel's notices |
| Alerts.EmailAlertType | script.js:1282-1347 | the email subjects: "Capacitive Sensor Alert", "High Current Alert", "Tampering Detected", "Device Movement Detected", "Proximity Alert" |
| Alerts.Idempotent | script.js:1266-1352 | evaluating the same snapshot again from the state the first evaluation stored fires nothing and leaves the state as it is |
| Alerts.ChannelIndependence | script.js:1273-1351 | whether a channel fires, and what is stored for it, depends only on its own stored and current values |
| Alerts.StateAfterShadowsLast | script.js:1286-1351 | after any non-empty run of polls the stored state shadows the last snapshot |
| Alerts.SustainedFiresOnce | script.js:1266-1352 | a channel that reads true at every poll of a run fires at most once: at the first poll, and only if it was stored clear |
| Alerts.RunEdge | script.js:1266-1352 | over a run, a channel fires at a later poll iff it reads true there and read false at the poll before |
| Alerts.RefireNeedsClear | script.js:1266-1352 | between two firings of the same channel there is a poll where it read clear |
| Alerts.CapacitiveOnly | script.js:1273-1286 | with every other channel clear, the evaluator is a rising-edge detector on the capacitive channel |
| Alerts.CapacitiveScenario | script.js:1273-1286 | capacitive on, on, off, on, from page load, fires at the first and the fourth poll only |
| Alerts.AlertMonitor.constructor | script.js:303-309 | every channel starts clear |
| Alerts.AlertMonitor.CheckForCriticalAlerts | script.js:1266-1352 | the field-by-field visit stores what Evaluate stores and raises the notices of Evaluate's fired channels, in order |
| Chart.FenceProximity | script.js:435 | the proximity plotted is 50 iff the fence status is "ACTIVE", and 0 iff it is not |
| Chart.Roll | script.js:434-449 | the newest value is last; the older values keep their order, with the oldest one dropped on overflow; the length grows by one unless it overflows |
| Chart.Window | script.js:117 | the window of a history is its newest at most 20 elements, as a suffix |
| Chart.RollWindow | script.js:429-449 | rolling a value into the window of a history gives the window of the extended history |
| Chart.ChartData.constructor | script.js:109-116 | the six series start empty, of equal length |
| Chart.ChartData.UpdateChart | script.js:429-455 | each series gets its value pushed and, once the labels exceed 20, its oldest value shifted off; equal lengths of at most 20 are kept; the length grows to 20 and stays there |
| Readings.BatteryWidth | script.js:410 | the width lies in [0, 100]; it equals the level inside that range, is 0 below it and 100 above it |
| Readings.BatteryWidthMonotone | script.js:410 | a higher level never gives a narrower gauge |
| Readings.UnitOf | script.js:238-241 | the setting selects Fahrenheit iff it is "F"; any other value, or none, selects Celsius |
| Readings.InUnit | script.js:220-222 | Celsius readings stay as they are; a Fahrenheit value converts back exactly to the Celsius reading |
| Readings.InUnitStrictlyIncreasing | script.js:220-222 | conversion to the chosen unit keeps the strict order of readings, both ways |
| Readings.TemperatureStatus | script.js:337-353 | high-heat iff above 35 °C, elevated iff in (30, 35] °C, optimal iff at most 30 °C, whatever the unit |
| Readings.StatusIndependentOfUnit | script.js:337-353 | the badge in Fahrenheit is the badge in Celsius |
| Translation.Entry | script.js:216 | a text counts only when present and non-empty |
| Translation.Translate | script.js:215-217 | the lookup fails iff the current language has no dictionary, or it needs English and there is none; the current language's usable text wins; otherwise English's, otherwise the key |
| Translation.TranslateTotal | script.js:215-217 | with an English dictionary and a known language the lookup succeeds, and its text is empty only for the empty key |
| DeviceAddress.TrimStart | script.js:512 | the result is a suffix, every character removed is whitespace, and it does not start with whitespace |
| DeviceAddress.TrimEnd | script.js:512 | the result is a prefix, every character removed is whitespace, and it does not end with whitespace |
| DeviceAddress.Trim | script.js:512 | the trimmed text is a slice of the input with only whitespace cut away before and after it, and it neither starts nor ends with whitespace |
| DeviceAddress.TrimIdempotent | script.js:512 | trimming twice is trimming once |
| DeviceAddress.SplitDots | script.js:522 | the dot-free pieces of a text join back into it |
| DeviceAddress.SplitJoin | script.js:522 | splitting undoes joining dot-free groups |
| DeviceAddress.MatchesIpPattern | script.js:522-523 | the address test accepts a text iff it is four groups of one to three digits joined by dots |
| DeviceAddress.MatchesIpPatternIsPattern | script.js:522-523 | cutting at the dots and asking for four digit groups accepts exactly the strings of four one-to-three-digit groups joined by dots |
| DeviceAddress.QuadAccepted | script.js:522-523 | every four digit groups are accepted, whatever their value |
| DeviceAddress.AcceptedShape | script.js:522-523 | an accepted address is 7 to 15 characters, digits and dots only |
| DeviceAddress.SaveDecision | script.js:511-541 | empty after trimming iff refused as empty; saved iff the trimmed text is in the pattern's language; a saved address is the trimmed text, 7 to 15 characters long |
| DeviceAddress.AddressStore.constructor | script.js:256 | the store starts with whatever was saved before |
| DeviceAddress.AddressStore.Save | script.js:511-541 | the outcome is SaveDecision's; the stored address changes only on a save, to the trimmed text |
| DeviceAddress.SaveWithoutRangeCheck | script.js:522-525 | any four digit groups are saved unchanged: there is no check that a group is at most 255 |
| DeviceAddress.SaveRefusesGroupCount | script.js:522-540 | digit runs joined by dots in any number but four, "1.2.3" among them, are refused as invalid |
| DeviceAddress.SaveRefusesLongGroup | script.js:522-540 | four digit runs joined by dots, one of them longer than three digits ("1234.1.1.1"), are refused as invalid |
| DeviceAddress.PollPlan | script.js:255-267 | a poll requests nothing iff no address, or the empty one, is stored; otherwise it requests the stored address's sensor endpoint |
| DeviceAddress.SensorUrl | script.js:267 | the URL is "http://", the address, then "/api/sensors", so the address can be read back out of it |
| DeviceAddress.SaveThenPoll | script.js:525-536 | after a save, the next poll requests the trimmed address |

## Left out

- The DOM, the loading animation, modals, the settings form, theme handling, the feedback form and the eye tracking. They are presentation only.
- The `fetch` call, JSON parsing, the 4-second timeout and the connection indicator (script.js:267-299). These are network I/O. Only the no-address early return is modelled.
- `setInterval` polling and the test-email cooldown. These are timer-driven. The source has no guard against overlapping polls.
- `sendAlertEmail`, email-sender.js, email-config.js and config.js. Notices are returned as values; whether and how an email is delivered is not part of this model.
- The warning titles and messages, and the time shown in them. The time comes from the clock, and the texts are display strings. The email subject is modelled.
- Alerts.Notices: every warning is listed, but the dashboard shows warnings in one shared overlay (script.js:1161-1165), so when several channels fire in one poll only the last channel's warning stays on screen.
- The emailNotifications setting is a parameter. Reading it from browser storage is not modelled.
- Alerts.Snapshot: the sensor flags are booleans. The model does not cover JavaScript truthiness of non-boolean JSON values, or a missing field.
- Numbers are exact reals. Floating-point rounding, NaN, `toFixed` formatting, and the `Math.round` of the battery text are not modelled.
- Readings.InUnit: the Fahrenheit conversion is exact. Comparing rounded floats in Fahrenheit could, in principle, flip a badge exactly at a threshold.
- Chart.ChartData.UpdateChart: every sample is assumed complete. In the dashboard, a response without `fence` throws after the label was pushed (script.js:434-435) and before the shift, which also skips the alert check of that poll; the model does not capture series of unequal length or a `labels` series that grows without bound.
- Chart.ChartSample: the time label is a parameter. It comes from locale formatting of the device clock.
- The chart library's `update` call after the window moves.
- Translation.Translate: the table is a parameter rather than the fixed English/Tamil table, so the properties hold for every table.
- `updateMPU6050` vibration and motion magnitudes. These use floating-point arithmetic.
