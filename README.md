# BalloonSat ground-station dashboard — a Dafny model

This project models the logic of the BalloonSat ground-station dashboard, a
PyQt6 desktop application. It follows the dashboard's own modules:

- `values.dfy` (`Values`): the Python values the dashboard passes around (`None`, booleans, numbers,
  strings, lists, tuples, dictionaries). It also holds truthiness, `or`, `dict.get`, `float()`,
  `str.strip()`, and a `Runtime` of library calls the model treats as given functions:
  ISO 8601 parsing, `strptime`, `json.loads`, `str.format` and `str()`.
- `metadata.dfy` (`Metadata`): the telemetry field and sensor definitions, the lookups by id,
  and the consistency check run when the definitions are loaded. The check is proved to pass on the
  configured lists.
- `table_model.dfy` (`TableModel`): the two-column telemetry table. It covers cell and header data,
  how a field's value is formatted, and the update that stores new values and reports the changed rows.
- `status_led.dfy` (`StatusLed`): the status LED widget and its three states. It also covers the
  indicator manager, which discovers the widgets named `…Indicator`, translates legacy state names,
  and sets one or all indicators.
- `gauge.dfy` (`Gauge`): the horizontal bar gauge, with its value clamped into the scale.
- `charts.dfy` (`Charts`): the altitude chart. It covers time parsing with the chart's epoch rule,
  reading a point's altitudes, three parallel buffers anchored at the first time, and refreshes
  batched every few points.
- `telemetry_bridge.dfy` (`TelemetryBridge`): the replay player. It covers reading newline-delimited
  JSON (with the array-file branch as the code has it, and a corrected reader beside it), timestamps, what one record emits (telemetry, sensor status, trajectory point),
  pacing by timestamp differences scaled by the speed, and whole runs. A run is one pass or a loop
  of passes, and it ends by the stop event, a finished pass or an exception.
- `dashboard.dfy` (`Dashboard`): the main window's rules. It covers which widget shows each sensor,
  the LED state for a sensor status, how fields are split between the latest-readings and track
  tables, the initial column widths, and how trajectory points reach the chart.
- `camera.dfy` (`Camera`): the camera window. It covers snapshot file names, recovering the next
  snapshot number from the names in the snapshot directory (with Python's `int()` and
  `f"{n:03d}"` written out), the counter that advances on each saved snapshot, and the rule that
  only one camera window is open at a time.

Each module has its own kind of model:

- Objects whose fields the source updates in place are classes with `modifies` clauses: the LED,
  the indicator manager, the gauge, the chart, the table model, the dashboard and camera windows,
  and the camera window slot.
- The chart's methods are proved against the state functions `Appended` and `Cleared`.
- The table update and the replay loops are `while` loops with invariants.
- Everything else is functions and lemmas.

Integers and floats are both `real` in the model (`Num`). Where the source truncates (`int(x * 3 / 5)`)
or bounds a value (`max(1, …)`, `max(0.0001, speed)`), the model writes it out.

In a few places the program's own comments promise more than its code does. The model follows the code:

- The player's module docstring (telemetry_bridge.py:10) and the comment at telemetry_bridge.py:195
  say a JSON-array replay file plays its records. The code plays nothing for such a file, and neither
  does the modelled run (see Findings).
- The comment at widgets/charts.py:222 calls the chart's buffers a rolling buffer with a maximum of
  10000 points (widgets/charts.py:224). That maximum is never read again, so nothing is evicted, and the
  model keeps every point.
- The player has no pause or resume: it only starts, stops and loops (telemetry_bridge.py:90-100
  and 219-222).

## Model

| member | source | states |
|---|---|---|
| Metadata.FieldById | metadata.py:587-609 | `None` exactly when no field has the id; otherwise the first field in list order whose id it is |
| Metadata.SensorById | metadata.py:612-634 | `None` exactly when no sensor has the id; otherwise the first such sensor |
| Metadata.FieldIds | metadata.py:637-652 | one id per field, in list order |
| Metadata.SensorIds | metadata.py:655-670 | one id per sensor, in list order |
| Metadata.HasDuplicatesIffRepeated | metadata.py:695-704 | the length-versus-set-size test flags exactly the lists in which some id occurs twice |
| Metadata.ValidateMetadata | metadata.py:677-713 | passes exactly when field ids and sensor ids are distinct and no entry has an empty id or caption; the duplicate-field error is raised exactly for repeated field ids; an empty-entry error names an entry of the list that has an empty id or caption |
| Metadata.FirstEmptyField | metadata.py:707-709 | `None` exactly when every field has a non-empty id and caption; otherwise a field of the list missing one |
| Metadata.FirstEmptySensor | metadata.py:711-713 | the same for sensors |
| Metadata.ConfiguredFieldIdsDistinct | metadata.py:206-477 | the 20 configured field ids are distinct |
| Metadata.ConfiguredSensorIdsDistinct | metadata.py:484-580 | the 12 configured sensor ids are distinct |
| Metadata.ConfiguredEntriesNamed | metadata.py:206-580 | every configured field and sensor has a non-empty id and caption |
| Metadata.ConfiguredMetadataIsValid | metadata.py:717 | the check run at import passes on the configured definitions |
| Metadata.FieldByOwnId | metadata.py:606-608 | in a list with distinct ids, looking up any field's id returns that field |
| Metadata.SensorByOwnId | metadata.py:631-633 | in a list with distinct ids, looking up any sensor's id returns that sensor |
| TableModel.TelemetryTableModel.constructor | models.py:125-139 | the table shows the given fields, or the configured telemetry fields when none are given, with no stored values |
| TableModel.TelemetryTableModel.Data | models.py:175-224 | for display-role cells: a row past the end raises `IndexError`; column 0 shows the caption; column 1 shows the formatted value, or raises the exception that escapes formatting; other columns and roles have no data |
| TableModel.ResolveFieldValue | models.py:321-394 | a missing or `None` value shows as ""; an exception escapes only when the display code does not catch it on that path: `IndexError`, `TypeError` and `ValueError` are caught for a GPS pair, and `ValueError`, `TypeError` and `KeyError` otherwise |
| TableModel.TelemetryTableModel.HeaderData | models.py:226-261 | horizontal display headers "Parameter" and "Value", also at the Python indices −2 and −1; `IndexError` for other sections; no data otherwise |
| TableModel.TableShape | models.py:141-173 | one row per field and two columns: each row's first cell is its field's caption, the row after the last raises `IndexError`, and a third column holds nothing |
| TableModel.TelemetryTableModel.UpdateTelemetry | models.py:303-319 | every displayed key present in the update takes its new value and nothing else changes; no change signal exactly when no field's key is in the update; otherwise the signal covers the first through the last changed row, and no row outside that range changed |
| TableModel.ChangedRowsRange | models.py:313-316 | the minimum and maximum of the changed rows are changed rows, and every row outside them is unchanged |
| TableModel.NoChangedRows | models.py:313 | the list of changed rows is empty exactly when no field's key is in the update |
| TableModel.UpdateThenDisplay | models.py:307-309 | after an update, a row whose key was updated shows the new value and every other row shows what it showed before |
| TableModel.MissingValueShowsEmpty | models.py:355-359 | a missing value, or a stored `None`, shows as an empty cell and never raises |
| TableModel.FormattedValueCarriesUnit | models.py:378-394 | a value that formats shows as the formatted text, a space and the unit; a `ValueError`, `TypeError` or `KeyError` from the format shows `str(value)`; any other exception escapes |
| TableModel.UnitlessValueIsFormatted | models.py:378-394 | a field without a unit shows the formatted value alone; the caught exceptions show `str(value)` and any other escapes |
| TableModel.RaisingTransformKeepsRaw | models.py:369-375 | a transform that raises leaves the raw value: the field shows exactly as it would without a transform |
| TableModel.TransformedValueShown | models.py:369-394 | a transform that succeeds is formatted in place of the raw value: the field shows as if the transformed value had been stored for a field without a transform |
| TableModel.SingleCoordinateRaises | models.py:378-394 | a GPS field holding one number, whose two-placeholder format raises `IndexError`, makes the value cell raise `IndexError`, since that exception is not caught |
| TableModel.GpsPairFormatting | models.py:362-367 | a coordinate pair goes to the two-argument format; an `IndexError`, `TypeError` or `ValueError` from it shows `str(value)`, and any other exception escapes |
| StatusLed.StatusLED.constructor | widgets/status_led.py:140-185 | a new LED is off, and `text()` returns "" |
| StatusLed.StatusLED.SetState | widgets/status_led.py:356-414 | a state outside on/off/fault raises `ValueError` and changes nothing; a valid state is shown, with one repaint exactly when it differs from the current one |
| StatusLed.StatusLED.SetOn | widgets/status_led.py:321-354 | true shows "on" and false shows "off"; never "fault" |
| StatusLed.StatusLED.GetState | widgets/status_led.py:416-448 | the state is always one of on, off and fault |
| StatusLed.StatusLED.SetText | widgets/status_led.py:216-275 | the text is stored, so `text()` returns it afterwards, and nothing visible changes |
| StatusLed.StatusLED.ApplyStatus | widgets/status_led.py:647-659 | the requested name is recorded as the "status" property, the mapped state is shown, and a repaint follows |
| StatusLed.MapState | widgets/status_led.py:596-607 | exactly the seven accepted names map: ok→on, inactive→off, error and warning→fault, and each LED state to itself |
| StatusLed.DiscoveredKeys | widgets/status_led.py:616-626 | discovery registers exactly the children with a non-empty name ending in "Indicator" |
| StatusLed.DiscoveredWidgets | widgets/status_led.py:616-626 | every registered widget is a child with that name, and a later child of the same name replaces an earlier one |
| StatusLed.DiscoveredOrderKeys | widgets/status_led.py:616-626 | the registry's key order lists every registered name exactly once |
| StatusLed.IndicatorsManager.constructor | widgets/status_led.py:609-626 | the manager's registry is the discovered one, in discovery order |
| StatusLed.IndicatorsManager.Set | widgets/status_led.py:630-661 | an unaccepted state name raises `ValueError` and changes nothing; otherwise the result says whether the target resolved to a widget, and a resolved LED is set to the mapped state with the name recorded |
| StatusLed.IndicatorsManager.SetAll | widgets/status_led.py:665-680 | an unaccepted state name raises `ValueError` and changes no LED; otherwise every registered LED is set to the mapped state with the name recorded |
| StatusLed.IndicatorsManager.Names | widgets/status_led.py:684-686 | the registered names, each once |
| StatusLed.IndicatorsManager.GetItem | widgets/status_led.py:690-692 | `None` exactly for a name that was not registered; otherwise the registered widget |
| Gauge.Clamp | widgets/gauge.py:160 | the result lies in [0, max] (0 for a negative max); a value inside the scale is kept, one below becomes 0, one above becomes max |
| Gauge.ClampIdempotent | widgets/gauge.py:160 | clamping a clamped value changes nothing |
| Gauge.LinearGauge.constructor | widgets/gauge.py:106-132 | a new gauge shows 0 on the given scale with the given caption |
| Gauge.LinearGauge.SetValue | widgets/gauge.py:138-165 | the shown value is the clamped input, with one repaint exactly when it changed |
| Gauge.LinearGauge.GetValue | widgets/gauge.py:167-179 | the value lies in [0, max] |
| Gauge.LinearGauge.SetLabel | widgets/gauge.py:181-202 | the caption changes, so `getLabel()` returns it afterwards, with a repaint exactly when it differs |
| Gauge.LinearGauge.SetMaxValue | widgets/gauge.py:205-224 | a maximum that is not positive raises `ValueError` and changes nothing; otherwise the scale changes and the value is re-clamped into it |
| Charts.NormalizeEpoch | widgets/charts.py:346-351 | above 1e12 the time is read as nanoseconds, above 1e10 as milliseconds, otherwise as seconds |
| Charts.ParseTime | widgets/charts.py:315-351 | no time for `None` or a container; a number gives its normalised epoch |
| Charts.ParsePoint | widgets/charts.py:315-383 | a point is ignored exactly when its raw time is missing or does not parse; otherwise it carries that parsed time, and is rejected exactly when its actual altitude does not convert; an accepted point stores the converted actual altitude, and the expected altitude converted, or NaN (`None`) when it is missing or not numeric |
| Charts.DictPointAlwaysClears | widgets/charts.py:308-310 | as written, a dictionary point without any clear key still clears the chart; as intended it does not |
| Charts.ClearFlagsAgreeOnObjects | widgets/charts.py:308-310 | the written and intended clear flags differ exactly on dictionary points without a truthy "clear" entry |
| Charts.AppendedKeepsBuffersAligned | widgets/charts.py:386-388 | an accepted point extends all three buffers by one, keeping their old contents; any other point leaves them alone |
| Charts.PendingStaysBelowBound | widgets/charts.py:391-399 | the refresh counter stays in [0, bound), the bound being `max(1, interval)`; a refresh happens exactly when the counter reaches the bound, which resets it to 0 |
| Charts.FirstPointAfterClearAtZero | widgets/charts.py:353-355 | the first point accepted after a clear is stored at relative time 0 |
| Charts.DictPointRestartsChart | widgets/charts.py:308-310 | after a dictionary point the chart holds at most that one point, at relative time 0, and holds it exactly when the point is accepted, whatever it held before |
| Charts.RejectedPointAnchorsBase | widgets/charts.py:353-378 | a point rejected for its altitude still sets the base time and stores nothing, and the next point is measured from it |
| Charts.StoredTimesRelativeToFirst | widgets/charts.py:353-388 | after any sequence of points from a cleared chart, the base time is that of the first point with a time, and the stored times are the accepted points' times minus it, in order |
| Charts.TrajectoryCharts.constructor | widgets/charts.py:205-224 | empty buffers, no base time, a refresh every 5 points, a declared cap of 10000 |
| Charts.TrajectoryCharts.Clear | widgets/charts.py:401-434 | buffers, counter and base time are reset, and the chart invariant holds |
| Charts.TrajectoryCharts.AppendPoint | widgets/charts.py:264-399 | the chart is cleared first when `getattr(p, "clear", False)` is truthy, which holds for every dictionary point; then the parsed point is appended; the result is whether the plot was refreshed; the buffers stay parallel, each stored time being its absolute time minus the base time |
| Charts.TrajectoryCharts.Store | widgets/charts.py:353-399 | storing one parsed point gives exactly the `Appended` state, and the refresh flag says whether that append refreshed the plot |
| Charts.TrajectoryCharts.GetDataPointCount | widgets/charts.py:442-453 | the number of stored points; all three buffers have that length |
| TelemetryBridge.NewPlayer | telemetry_bridge.py:78-84 | a speed that is not positive becomes 1.0; the other settings are kept |
| TelemetryBridge.TsValue | telemetry_bridge.py:128-143 | numbers above 1e12 are milliseconds, other numbers are seconds; a string ending in 'Z' is parsed with "+00:00" in its place; `None` and containers give no time |
| TelemetryBridge.ParseTs | telemetry_bridge.py:125-143 | the record's `ts` when truthy, else its `timestamp`; no time when it has neither |
| TelemetryBridge.SkippedLineChangesNothing | telemetry_bridge.py:114-122 | a blank or undecodable line can be removed without changing the records or their order |
| TelemetryBridge.DecodedLineKept | telemetry_bridge.py:114-119 | a non-blank line that decodes gives its record, between those of the lines before and after it |
| TelemetryBridge.RecordsComeFromLines | telemetry_bridge.py:114-122 | every record is the decoding of some non-blank line |
| TelemetryBridge.LoadRecords | telemetry_bridge.py:103-122 | the reader as intended: an empty file has no records; a file not starting with '[' gives its decodable non-blank lines in order; an array file gives the decoded array |
| TelemetryBridge.OpenRecords | telemetry_bridge.py:103-122 | the reader as written: the loop over the lines computes exactly `OpenRecordsAsWritten`, which agrees with `LoadRecords` except that an array file gives no records, or raises when it does not decode |
| TelemetryBridge.ArrayFilePlaysNothingAsWritten | telemetry_bridge.py:110-112 | as written, an array file with records yields no record; as intended it yields its records |
| TelemetryBridge.ReadersAgreeOnNdjson | telemetry_bridge.py:103-122 | the written and intended readers agree on every file not starting with '[' |
| TelemetryBridge.WithGpsText | telemetry_bridge.py:158-160 | a list or pair under `gps_latlon` becomes text; no other key changes; a list that is not a pair raises |
| TelemetryBridge.GpsLatLonBecomesText | telemetry_bridge.py:151-160 | numeric coordinates reach the table as one "lat, lon" text with six decimals, and every other key is forwarded unchanged |
| TelemetryBridge.Altitude | telemetry_bridge.py:179-185 | `alt_gps` when truthy, else `alt_bmp` when present, else 0.0 |
| TelemetryBridge.TrajectoryOf | telemetry_bridge.py:177-188 | a trajectory point exists exactly when both coordinates are present and convert to numbers; it carries them and the forwarded altitude as both altitudes |
| TelemetryBridge.SensorStatusOnlyForDict | telemetry_bridge.py:169-174 | a sensor-status event carries the record's `sensors` dictionary, and a completed emission has one exactly when that dictionary exists |
| TelemetryBridge.EmissionShape | telemetry_bridge.py:146-188 | a completed emission starts with the forwarded telemetry, whose `gps_latlon` is never a list or pair, and its trajectory point has the forwarded coordinates |
| TelemetryBridge.EmitRecord | telemetry_bridge.py:146-188 | the step-by-step emitter produces exactly the events `EmitOutcome` describes, and says whether it completed |
| TelemetryBridge.EmissionNeverSleeps | telemetry_bridge.py:146-188 | emitting a record never pauses |
| TelemetryBridge.Pace | telemetry_bridge.py:208-214 | in realtime mode, the timestamp difference divided by the speed and never negative; no pause for the first timestamped record; the default interval divided by the speed without a timestamp, where a negative interval raises; no pause at all without realtime |
| TelemetryBridge.PaceAtDoubleSpeed | telemetry_bridge.py:211 | worked example of `Pace`: records ten seconds apart are emitted five seconds apart at speed 2 |
| TelemetryBridge.FirstOfPassNoPause | telemetry_bridge.py:204-212 | each pass starts with no previous timestamp, so its first timestamped record is not delayed |
| TelemetryBridge.SleepsNonNegative | telemetry_bridge.py:209-222 | no pause a run takes is negative |
| TelemetryBridge.NoRecordPausesWithoutRealtime | telemetry_bridge.py:209-222 | without realtime, the only pauses are the 0.1 s pauses between passes |
| TelemetryBridge.PlayRecord | telemetry_bridge.py:205-217 | a record is given up exactly when it is not a dictionary or its pause raises; otherwise its pause and emission are added, and the next previous timestamp is the record's own or the clock |
| TelemetryBridge.PlayPass | telemetry_bridge.py:204-217 | a pass emits the events of its records in order; it is done only after every record completed, stops only at the stop event, and aborts only when an emission raised or a record could not be started |
| TelemetryBridge.UnreadableResult | telemetry_bridge.py:223-225 | a file that cannot be read ends the run with no events |
| TelemetryBridge.EmptyResult | telemetry_bridge.py:201-202 | a file without records ends the run before any record |
| TelemetryBridge.StoppedBeforeStart | telemetry_bridge.py:192 | a run asked to stop before its first record emits nothing |
| TelemetryBridge.AbortedPassEndsRun | telemetry_bridge.py:223-225 | an exception inside a pass ends the run with the events so far |
| TelemetryBridge.SinglePassEndsRun | telemetry_bridge.py:219-220 | without looping, the run ends after one pass: finished after the last record, stopped before it |
| TelemetryBridge.StoppedLoopEndsRun | telemetry_bridge.py:192-222 | a looping run that is stopped ends with the events so far and one pause between passes |
| TelemetryBridge.NextPass | telemetry_bridge.py:193-225 | one pass re-reads the file with the reader as written and plays it; a file that cannot be opened or decoded ends the run; either the run ends with a result `RunResult` allows, or a looping run goes on after the pause |
| TelemetryBridge.Run | telemetry_bridge.py:191-225 | the events and the end of a run are those `RunResult` describes over the reader as written: nothing for a file that cannot be opened or decoded (the run aborts), an empty file or an array file, otherwise the records' pauses and emissions in file order, pass after pass, ending only by the stop event, a finished single pass or an exception |
| TelemetryBridge.ArrayFileRunEndsEmpty | telemetry_bridge.py:110-112 | a run over an array file emits nothing: it ends as for an empty file when the array decodes, and aborts when it does not |
| Dashboard.SensorMapDistinct | dashboard.py:397-410 | the sensor map names each sensor once and each indicator once |
| Dashboard.PairIndexOf | dashboard.py:397-410 | the position of the last pair with an id, the one a dictionary literal keeps; `None` exactly when no pair has it |
| Dashboard.FindLedFrom | dashboard.py:422-424 | the first LED child with the name, searching from a position; `None` exactly when there is none |
| Dashboard.SensorLedsFromMap | dashboard.py:414-424 | every entry of the sensor table belongs to a sensor of the map and is the widget found for that sensor's indicator name |
| Dashboard.SensorLedsDistinctIds | dashboard.py:414-424 | the sensor table lists each sensor at most once |
| Dashboard.SensorLedsFound | dashboard.py:414-426 | a sensor of the map is in the table exactly when a registered indicator or an LED child carries its indicator name |
| Dashboard.SensorLedsDistinct | dashboard.py:411-426 | no LED appears twice in the sensor table |
| Dashboard.FallbackFindsNothingNew | dashboard.py:417-424 | for a name ending in "Indicator", the registry lookup followed by the direct search finds a widget exactly when some child has that name, so the direct search never finds one that discovery missed |
| Dashboard.CollectSensorLeds | dashboard.py:414-426 | the loop over the sensor map builds exactly the sensor table `SensorLeds` describes |
| Dashboard.DashboardWindow.constructor | dashboard.py:397-426 | the window's registry is the discovered one, its sensor table is the one built from the sensor map, and no LED is in the table twice |
| Dashboard.SensorLedState | dashboard.py:1063-1076 | "on" exactly when the sensor's status is `True` itself; otherwise "fault", including a missing sensor |
| Dashboard.TruthyIsNotTrue | dashboard.py:1065-1076 | a truthy status such as 1 still shows a fault, and so does a missing one |
| Dashboard.DashboardWindow.UpdateSensors | dashboard.py:1063-1076 | every sensor LED shows its status state in table order; a widget without `setState` raises `AttributeError` there, leaving later LEDs unchanged |
| Dashboard.DashboardWindow.InitializeLeds | dashboard.py:929-931 | every sensor LED is turned off in table order, under the same rule for other widgets |
| Dashboard.DashboardWindow.ShowStates | dashboard.py:929-931 | the LEDs before the first other widget show the given states; no later LED changes; the call fails exactly when there is another widget |
| Dashboard.LedPrefix | dashboard.py:1065-1074 | the entries before the first non-LED widget are all LEDs |
| Dashboard.PartitionSplitsFields | dashboard.py:495-500 | each field goes to exactly one of the two tables, by whether its key is a track key, and together the tables hold the fields exactly once each |
| Dashboard.PartitionKeepsOrder | dashboard.py:495-500 | both tables keep the configured order; splitting a concatenation splits each part |
| Dashboard.ConfiguredTrackFields | dashboard.py:495-500 | on the configured fields, the track table holds GPS altitude, the GPS position and the RTC time, in that order, and the latest-readings table the other 17 |
| Dashboard.ColumnWidths | dashboard.py:602-604 | the available width is the viewport's, else the table's, else 600, and so never 0; the first column is three fifths of it, truncated toward zero; the second is the rest, but at least 80; together the columns fill a width of 200 or more |
| Dashboard.UnsizedTableColumns | dashboard.py:665-667 | worked example of `ColumnWidths`: a table without a size yet splits 600 pixels as 360 and 240 |
| Dashboard.PlayerPointStored | telemetry_bridge.py:176-186 | a point from the player never clears the chart and always has a time, read with the chart's epoch rule; it is stored exactly when its altitude converts to a number |
| Dashboard.EpochRulesDisagree | widgets/charts.py:346-351 | the player keeps an epoch of 5e10 as seconds, while the chart reads it as milliseconds |
| Dashboard.DashboardWindow.AppendTrajectory | dashboard.py:1286-1299 | nothing without a chart; otherwise the chart is cleared when `getattr(p, "clear", False)` is truthy (every dictionary point), and the point is appended |
| Camera.Decimal | esp32cam_window.py:215 | the decimal digits of a natural number: non-empty and digits only |
| Camera.Pad3 | esp32cam_window.py:215 | `f"{n:03d}"` has at least three characters: digits only for n ≥ 0, a minus sign and digits otherwise |
| Camera.Pad3RoundTrip | esp32cam_window.py:215 | `int()` reads back the zero-padded counter: `int(f"{n:03d}") == n` for every integer |
| Camera.ParseIntRejectsOtherCharacters | esp32cam_window.py:293-296 | `int()` rejects any text containing a character that is not a digit, an underscore, a sign or whitespace, so such a file name carries no number |
| Camera.LastField | esp32cam_window.py:292 | `split('_')[-1]`: the part after the last underscore, which contains no underscore |
| Camera.SnapshotNameRoundTrip | esp32cam_window.py:214-215 | every snapshot name the window writes matches the directory glob, and the number read back from it is the counter it was saved with |
| Camera.NumbersListed | esp32cam_window.py:289-297 | every file that carries a number contributes it, and every number comes from some file |
| Camera.MaxOrZero | esp32cam_window.py:299 | `max(xs, default=0)`: 0 for an empty list, else a member at least as large as every member |
| Camera.NextSnapshotNumber | esp32cam_window.py:275-299 | 1 when no snapshot file carries a number; otherwise one more than the largest number, which some file carries; every file's number is below the result |
| Camera.SavingAdvancesNextNumber | esp32cam_window.py:214-244 | saving the snapshot the counter names moves the directory's next number on by exactly one |
| Camera.SavedNumberNotReused | esp32cam_window.py:214-244 | the number of a saved snapshot is never handed out again by a later window |
| Camera.CameraWindow.Open | esp32cam_window.py:67-136 | a new window's counter starts at the next snapshot number of the directory, and its status line says it is waiting for a connection |
| Camera.CameraWindow.OnSnapshot | esp32cam_window.py:199-249 | without a frame nothing is saved; a successful save writes the name of the current counter, advances it by one and updates the status line; a failed save changes nothing; on an object whose construction returned early the handler fails |
| Camera.WindowSlot.Construct | esp32cam_window.py:67-75 | while a window is open, it is raised and the new object is left bare; otherwise a new window is built and registered |
| Camera.WindowSlot.IsOpen | esp32cam_window.py:323-325 | open exactly when a window is registered |
| Camera.WindowSlot.Close | esp32cam_window.py:312 | closing empties the slot, so the next construction builds a new window |

## Left out

- Qt painting, sizes, style polishing, tooltips, fonts, colours and layout loading: they decide how
  things look, not what state is shown.
- The dispatcher's signals: emitted values are recorded as events, and who receives them is not modelled.
- Threads, `start()`, `stop()` with its join timeout, and `time.sleep`: a run is a sequence of events,
  a pause is an event, and the stop event is seen as set once `stopAfter` records have started.
  A stop request that arrives between passes, so that the loop-head check (telemetry_bridge.py:192)
  misses it but the per-record check (:206) catches it, gives traces the model does not produce. One is a
  looping run that ends after a single 0.1 s pause and no record of its next pass; another is two pauses
  in a row. These timing windows are inside this abstraction.
- File reading, `json.loads`, `datetime.fromisoformat`, `strptime`, `str.format`, `str()`, transforms and
  `time.time()`: these are parameters of the model (the `Runtime` functions and a clock).
- Floating point: numbers are exact reals. NaN for a missing expected altitude is `None`, and
  rounding in the chart, the gauge and the column widths is not modelled.
- The chart's `datetime` time values (`hasattr(raw_t, "timestamp")`): the `Value` type has no
  datetime objects.
- The chart's axis and range setters, titles, downsampling options and the `TypeError` fallback of `setData`: display only.
- TelemetryBridge.EmitRecord: a `telemetry` list whose items all have two elements would be turned into a
  dictionary by `dict()` and forwarded before the emitter raises. The model forwards no telemetry for a
  list; it does model the list's membership tests and the exception that ends the run.
- The dashboard's fallback to the widget finder when creating the indicator manager raises
  (dashboard.py:427-430). That code lies outside this model, and the manager's constructor
  cannot fail in the model.
- The dashboard's code that opens the camera window (dashboard.py:1586-1596). It checks and raises
  the open window through the same class slot that `WindowSlot.Construct` models.
- The camera window's frame handler (`_on_frame_ready`), which rewrites the status line and shows
  each frame: the model keeps only the status a new window starts with.
- The camera window's live feed, frame capture and JPEG encoding: whether a frame exists and whether
  the save succeeded are inputs of `OnSnapshot`. The message boxes and the file size read by
  `stat()` are left out.
- Camera.ParseInt: Python's `int()` also accepts non-ASCII decimal digits, such as Arabic-Indic digits.
  The model accepts only the ASCII digits 0-9.
- Camera.MatchesSnapshotGlob: the glob is case-sensitive, as on Linux. On Windows `Path.glob`
  ignores case.
- TelemetryBridge.Run: each pass reads the file again, but the model gives the run one file, so its
  content is the same on every pass. A file changed or removed by another process between passes is
  not modelled.
- The snapshot directory's contents are a list of names. Other processes writing to it are not modelled.
- The metadata's `__main__` self-test and the modules' demo blocks: they only print.

## Findings

| source | as written | input that shows it | evidently intended | confidence | as-written member | corrected member |
|---|---|---|---|---|---|---|
| telemetry_bridge.py:103-122 | `_open_records` contains `yield`, so it is a generator. `return json.load(fh)` for a file starting with '[' ends the iteration with no items, so `list(...)` is empty and the run returns as if the file were empty | a file whose content is `[{"ts": 1, "telemetry": {"alt_bmp": 5}}]` | a JSON array file plays its records | not executed | TelemetryBridge.ArrayFileRunEndsEmpty | TelemetryBridge.LoadRecords |
| widgets/charts.py:308-310 | `getattr(p, "clear", False)` on a dictionary finds the bound method `dict.clear`, which is truthy, so every dictionary point clears the chart before it is stored (dashboard.py:1292-1295 does the same). The chart and dashboard methods follow the code as written | the dictionary point `{"ts": 1.0, "alt_actual": 10.0}` | only a point with a truthy `clear` attribute or key clears the chart | not executed | Charts.DictPointRestartsChart | Charts.ClearRequested |
