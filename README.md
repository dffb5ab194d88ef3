# Drone dashboard state-update engine, modelled in Dafny

The dashboard keeps one mutable state object, `dashboardState`, in
`script.js`. It holds threat level, battery, power mode, detection counters,
GPS position, link status and a timeline of events. Once a second a simulator
changes some of these fields at random, and a few small helpers format values
for display. This project models that state engine:

- `EventLog` (`event_log.dfy`): the timeline as a FIFO that keeps at most ten
  records. `Push` models `addEvent`'s push followed by a shift. `Recent` is the
  `slice(-5)` the display reads. `Last` is an independent reference ("the last
  n of everything appended"), and the lemmas connect the log to it.
- `Telemetry` (`telemetry.dfy`): the state as a value (`Snapshot`) and its
  invariant `Valid`, which includes "the power mode is derived from the
  battery". It also has the five guarded updates of one simulator tick, the
  tick itself (`Tick`), runs of many ticks (`Run`), and the lemmas about them.
  The draws of `Math.random` are explicit inputs (`Draws`, each a real in
  [0, 1)). The two clock readings used for time stamps are also inputs
  (`TickInput`).
- `Dashboard` (`dashboard.dfy`): `dashboardState` as a class. Its fields are
  updated in place by `AddEvent`, `SimulateSystemUpdates` (split into one
  method per guarded block) and `AnnounceStartup`, the three deferred notices.
  Each method's postcondition gives the new `Snapshot()` as a function of the
  old one, so the lemmas in `Telemetry` carry over to the object.
- `HexColor` (`hex_color.dfy`): `hexToRgb`, with an encoder for hex colours
  and a reader for the `"R, G, B"` output text, used to state what
  `HexToRgb` computes.
- `EventTypes` (`event_types.dfy`): `getEventTypeText`, both as written and
  as evidently intended (see Findings).
- `Util` (`util.dfy`): `Option`, `Min` and `Max`.

The battery is an integer in tenths of a percent. The start value is 850,
each drain subtracts 1, the floor is 50, and the mode thresholds are 700 and
300. These are the source's 85, 0.1, 5, 70 and 30 without floating point.

Points about what the code does that are easy to miss:

- The code clamps the battery only from below, at 5. Nothing in the code ever
  raises the battery, so the model's invariant (50..1000 tenths) comes from
  the start value and from drains never increasing it.
- The severity of an event is a free string in the code, not an enumeration.
  `getEventTypeText` handles unknown names, so the model keeps severity as a
  string.
- `fps` starts at 0 and only enters [20, 29] after the first detection
  refresh. The invariant allows both.

## Model

| member | source | states |
|---|---|---|
| `EventLog.Push` | script.js:150-159 | from a log of at most 10, the result has length min(old + 1, 10); the new record is last; the entries before it are the old log, minus its first entry exactly when the old log was full; the result equals the last 10 of old log + [record] |
| `EventLog.PushAll` | script.js:146-162 | consecutive `addEvent` calls: from a log of at most 10, the log length becomes min(old + appended, 10) |
| `EventLog.PushAllKeepsLast` | script.js:150-159 | any sequence of appends to a log of at most 10 leaves exactly the last ten of all records, old and new, in append order |
| `EventLog.InitialLogAfterAppends` | script.js:15-18 | from the two initial records, N appends leave exactly the last min(N + 2, 10) records, in append order |
| `EventLog.Recent` | script.js:121 | the displayed slice has length min(5, length) and is a suffix of the log, so its order is chronological |
| `EventLog.RecentAfterAppends` | script.js:121 | after any appends to a log within capacity, the display shows exactly the five most recently appended records, oldest first (fewer if fewer exist) |
| `Dashboard.DashboardState.RecentEvents` | script.js:121 | returns exactly `Recent` of the object's log: the last min(5, length) records, in order |
| `Telemetry.Initial` | script.js:2-19 | the initial state satisfies the invariant: battery 85 % with mode HIGH, zero detections, and the two initial events |
| `Telemetry.Bucket` | script.js:168 | floor(r * n) of a draw r in [0, 1) lies in 0 .. n - 1 |
| `Telemetry.UpdateThreat` | script.js:167-178 | threat level in 0..3; exactly one "warning" record is pushed, and its message is the table entry for the new level; nothing else changes; the invariant is kept |
| `Telemetry.ThreatDrawThree` | script.js:171-178 | a draw that floors to 3 sets level 3 and appends only "Vehicle detected - elevated threat" as a warning |
| `Telemetry.DrainBattery` | script.js:182-191 | battery becomes max(5 %, old - 0.1 %): never below the floor; never above the old level; exactly one step lower when above the floor. The mode is then HIGH above 70 %, MEDIUM above 30 %, LOW otherwise. Nothing else changes |
| `Telemetry.DrainTimesLevel` | script.js:183-188 | n drains leave max(floor, level - n), with the mode derived from it |
| `Telemetry.DrainToMedium` | script.js:4-5 | starting at 85 % in mode HIGH, draining to 65 % gives mode MEDIUM without any direct write of the mode |
| `Telemetry.RefreshDetections` | script.js:194-204 | people in [0, 4], vehicles in [0, 2], fps in [20, 29], detection count + 1 exactly; only those and the target change |
| `Telemetry.DriftPosition` | script.js:207-213 | latitude and longitude each move by less than 0.00005 (lower bound included), altitude by less than 0.25 (same); nothing else changes |
| `Telemetry.UpdateLink` | script.js:216-228 | status CONNECTED iff the nested draw < 0.7; pushes "success"/"Communication restored" when CONNECTED, "warning"/"Communication link unstable" when RECONNECTING; nothing else changes |
| `Telemetry.LinkUnstable` | script.js:216-227 | a nested draw of at least 0.7 gives RECONNECTING and appends the unstable-link warning only |
| `Telemetry.SilentUpdates` | script.js:181-213 | the drain, detection and drift blocks never touch the log, threat level or link status; detection count + 1 iff that trial fires; battery drained iff that trial fires |
| `Telemetry.Tick` | script.js:165-229 | one call: threat, drain, detection, drift and link updates, each under its own trial, in source order; the session start is fixed, the detection count rises by at most one, the battery falls by at most one step and does not rise from at or above the floor; its other properties are the `Tick*` lemmas |
| `Telemetry.TickEvents` | script.js:165-229 | the records one tick appends, threat then link; at most two (a tick's log is `PushAll` of these, by `TickAppendsOnlyTickEvents`) |
| `Telemetry.TickAppendsOnlyTickEvents` | script.js:165-229 | a tick's log is the old log with pushes of the threat warning (if that trial fires) then the link event (if that trial fires), and nothing else |
| `Telemetry.TickPreservesValid` | script.js:165-229 | every tick keeps the invariant: value ranges, battery within bounds, power mode matching the battery, log at most 10 |
| `Telemetry.TickCounters` | script.js:181-204 | per tick the detection count rises by 1 exactly when that trial fires; the battery drains exactly when that trial fires; the session start never changes |
| `Telemetry.Run` | script.js:165-229 | a sequence of timer ticks: the session start is fixed, the detection count rises by at most one per tick, the battery falls by at most one step per tick |
| `Telemetry.RunEvents` | script.js:165-229 | the records a run appends, tick by tick; at most two per tick |
| `Telemetry.RunAppendsOnlyTickEvents` | script.js:146-229 | over any run the log is the old log with every tick's records pushed in tick order; from a log within capacity it is the last ten of old and new records |
| `Telemetry.RunPreservesValid` | script.js:165-229 | over any sequence of ticks the invariant holds, power mode matches battery, detection count never decreases, battery never increases |
| `Telemetry.PushAllConcat` | script.js:150-159 | pushing two batches one after the other is the same as pushing their concatenation |
| `Dashboard.StartupLog` | script.js:246-248 | when no tick logs an event before or between the three start-up notices, the log is the two initial records followed by the notices, in order, and all five are displayed |
| `Dashboard.StartupLogInterleaved` | script.js:246-248 | with any records logged by ticks before and between the three notices, the log is the last ten of everything in that order; it ends with the third notice, and with each earlier notice and the records after it as long as they fit in ten |
| `Dashboard.DashboardState.constructor` | script.js:2-19 | the new object's snapshot is the initial state, which is valid |
| `Dashboard.DashboardState.AddEvent` | script.js:146-162 | only the log changes, and it becomes `Push(old log, record)`; the invariant is preserved |
| `Dashboard.DashboardState.UpdateThreatLevel` | script.js:167-178 | the object's new snapshot is `UpdateThreat` of the old one |
| `Dashboard.DashboardState.Drain` | script.js:182-191 | the object's new snapshot is `DrainBattery` of the old one |
| `Dashboard.DashboardState.Detect` | script.js:194-204 | the object's new snapshot is `RefreshDetections` of the old one |
| `Dashboard.DashboardState.Drift` | script.js:207-213 | the position array is updated in place; the new snapshot is `DriftPosition` of the old one |
| `Dashboard.DashboardState.UpdateCommunication` | script.js:216-228 | the object's new snapshot is `UpdateLink` of the old one |
| `Dashboard.DashboardState.SimulateSystemUpdates` | script.js:165-229 | the new snapshot is `Tick` of the old one and the draws, so a tick is deterministic given its draws; the invariant is kept |
| `Dashboard.DashboardState.AnnounceStartup` | script.js:246-248 | the three notices are pushed in order (success, info, success) and nothing else changes |
| `HexColor.Exec` | script.js:71 | the anchored match succeeds exactly when the input is an optional `#` followed by six hex digits, and its three captures are the digit pairs in order |
| `HexColor.HexToRgb` | script.js:70-75 | returns a value exactly when the input is an optional `#` followed by six hex digits of either case, and `null` otherwise |
| `HexColor.HexToRgbRoundTrip` | script.js:71-73 | any three bytes written as hex, with or without `#`, all six digits in lower case or all in upper case, convert to their own decimal text "R, G, B" (mixed-case input is covered by `HexToRgbMeaning`) |
| `HexColor.HexToRgbMeaning` | script.js:71-73 | an accepted input's output reads back as three numbers, each 0..255, whose lower-case hex spelling is the input's six digits |
| `HexColor.RgbTextParses` | script.js:73 | the output text splits at its commas into exactly the three decimal components |
| `HexColor.HexPairRoundTrip` | script.js:73 | `parseInt(…, 16)` of a byte written as two hex digits, in either case, is that byte |
| `HexColor.ParseHexPair` | script.js:73 | a two-digit hex capture denotes a value below 256 |
| `HexColor.DecimalString` | script.js:73 | the decimal rendering is a non-empty string of digits with no leading zero, at most three long below 1000 |
| `HexColor.DecimalRoundTrip` | script.js:73 | the decimal rendering reads back as the number rendered |
| `EventTypes.EventTypeText` | script.js:135-143 | the four severity names map to their upper-case form, every other name to "INFO" |
| `EventTypes.EventTypeTextAsWritten` | script.js:142 | the source's object lookup: table names give their label; names inherited from Object.prototype give the inherited member; any other name gives "INFO" |
| `EventTypes.AsWrittenAgreesExceptInherited` | script.js:136-142 | as written and as intended agree on exactly the names that are not inherited from Object.prototype |
| `EventTypes.ConstructorIsNotInfo` | script.js:142 | the name "constructor" gets Object's constructor as written, and "INFO" as intended |

## Left out

- DOM rendering is not modelled, because it is display only: `updateTime`,
  `updateBattery`, `updateThreatLevel`, `updatePowerMode`,
  `updateSessionTime`, `updateDetectionStats`, `updateGPS`, the markup built
  in `updateEventsLog` (only its `slice(-5)` is modelled), and the
  `comms-status` write.
- `setInterval`, `setTimeout` and the `DOMContentLoaded` hook are not
  modelled. Instead, a host calls `SimulateSystemUpdates` (and `Run` for
  sequences of ticks) and `AnnounceStartup`. The 2 s, 4 s and 6 s delays are
  not modelled, only the order of the three notices.
- Dashboard.StartupLog: covers only the case where the three notices are
  pushed back to back, as `AnnounceStartup` does. In the source the ticks
  run once a second from the start, so ticks that log events before or
  between the notices are not part of this lemma;
  `Dashboard.StartupLogInterleaved` states the log for that case.
- `Date.now()`, `new Date()` and `toLocaleTimeString()` are replaced by
  parameters: the session start is an integer, and each event's time is a
  string passed in.
- `Math.random()` is replaced by the `Draws` record, one real in [0, 1) per
  call site. A trial that does not fire consumes nothing, so its pick fields
  are ignored.
- Telemetry.DrainBattery: uses exact tenths, not IEEE-754 doubles.
  Repeatedly subtracting 0.1 in JavaScript accumulates rounding error, so
  near 70 % or 30 % the source may change mode one tick earlier or later
  than the model.
- Telemetry.DriftPosition: uses exact real arithmetic, not floating point.
- `hexToRgb` on values that are not strings is not modelled. `exec`
  converts its argument to a string, so the number 123456 would give
  "18, 52, 86". The only caller in script.js passes string constants.
- `getEventTypeText` on values that are not strings (`undefined`, numbers) is
  not modelled. Every caller in script.js passes a string.

## Findings

| source | as written | input that shows it | evidently intended | confidence | as-written member | corrected member |
|---|---|---|---|---|---|---|
| script.js:142 | the badge text is looked up as a property of a plain object literal, which also finds names inherited from Object.prototype; those yield a function or object, which is truthy, so the "INFO" fallback is skipped | the severity `"constructor"` (also `"toString"`, `"__proto__"`, …) | every name outside the four severities shows "INFO" | not executed; no caller in script.js passes such a name | `EventTypes.EventTypeTextAsWritten` | `EventTypes.EventTypeText` |
