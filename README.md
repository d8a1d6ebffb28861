# Smart-factory sensor simulator and dashboard, modelled in Dafny

The system has two sides:

- **The simulator.** It holds one value per sensor, a per-sensor fault timer and a pause flag. It accepts three commands (RESET, CLEAR_FAULTS, TOGGLE_SIM). Every `update_rate` seconds it broadcasts a batch of readings: each reading drifts within a clamp band, can fall into a sticky fault for `fault_duration` seconds, or can show a one-off spike.
- **The client.**
  - A reader thread splits the byte stream into newline-separated JSON frames and sends commands.
  - A dashboard classifies each reading against its sensor's limits, logs each new alarm once, and keeps a 100-point history per sensor. It also has a password-protected maintenance lock.
  - A notifier rate-limits alerts per sensor and formats them for the desktop, e-mail and SMS.

The model is split into one module per file:

| file | module | what it holds |
|---|---|---|
| `json.dfy` | `Json` | JSON values as a datatype; Python type names; the `{"status", "message"}` response shape |
| `strings.dfy` | `Strings` | Python's `strip()`, `split(sep)`, `"sep".join` and `t in s`, with their algebra |
| `sensor_config.dfy` | `SensorConfig` | `SENSOR_CONFIG`, `SIM_CONFIG`, host and port; their well-formedness; `S{i:02d}` ids |
| `simulator.dfy` | `Simulator` | the `SensorSimulator` class; the tick, command and serving-step specifications; `generate_dynamic_config` |
| `comm_thread.dfy` | `CommThread` | chunk framing and classification in `run`; the `Client` class with `send_command` |
| `notifications.dfy` | `Notifications` | the `NotificationManager` class; cooldown gate, message formats, icon choice |
| `dashboard.dfy` | `Dashboard` | the `Dashboard` class; alarm classification, deduplication, bounded histories, log clearing, console lock |

Each stateful class is proved against value-level specification functions. Its methods ensure that the new state equals a function of the old state: `GenerateData` against `Tick`, `ProcessCommand` against `ApplyCommand`, `UpdateData` against `Update`, `SendAlert` against `Alert`. The lemmas then state what the source promises about those functions.

Inputs the Python code takes from its environment are parameters of the model:

- **Randomness.** Each sensor gets a `Draw(drift, check, coin, stamp)`: the two `random.random()` values, the `random.choice` coin, and the timestamp that line 114 reads.
- **Clock readings.** Each `time.time()` is passed as `now`, or as the three readings in `Clock`.
- **JSON.** The parser is `parse: string -> Option<Json>`, where `None` means `JSONDecodeError`. The serialiser is `dumps: Json -> string`.
- **Formatting.** Python's `str` on floats is `show`, `round(x, 2)` is `round2`, and the strftime renderings are `clock` and `fmtTime`.

Where the written description of the system differs from the code, the model follows the code:

- The clamp band bounds the **stored** value only. An emitted value need not lie in it. A spike is always out of the sensor's limits (`SpikeOutOfLimits`). It also leaves the band when the limits allow it: the upward spike iff `high > 2 * low`, the downward one iff `2 * high > 3 * low` (`SpikeBand`). So S01's upward spike leaves the band (`SpikeLeavesBand`), while both of S02's spikes, 1280 and 720, stay inside its band 720..1320 (`PressureSpikesInBand`). The 0.0 of a fault lies outside the band whenever `low * 0.9 > 0`.
- Drift is stored on every tick, spike and fault ticks included.
- The tick on which a fault expires makes no fault or spike draw.
- A batch is one JSON object keyed by sensor id (`data[sid] = {...}`), not a list.
- The unit of S01 is the text the configuration file holds, `"Â°C"`: three characters, the UTF-8 bytes of `°C` decoded once too often. Every S01 reading carries that text.

## Model

| member | source | states |
|---|---|---|
| SensorConfig.BaseWellFormed | core/sensor_config.py:5-36 | five base sensors with distinct ids, each with `0 <= low < high` |
| SensorConfig.SimWellFormed | core/sensor_config.py:39-45 | the fault and spike probabilities are non-negative with sum at most 1, drift is non-negative, and both periods are positive |
| SensorConfig.BandHoldsMidpoint | simulator.py:76 | for well-formed limits, `low*0.9 <= low < (low+high)/2 < high <= high*1.1` |
| SensorConfig.BaseIdsNumbered | core/sensor_config.py:6-30 | the base ids are `S{k:02d}` for k = 1..5 |
| SensorConfig.SensorIdInjective | simulator.py:212 | distinct numbers give distinct `S{i:02d}` ids |
| Strings.Split | core/comm_thread.py:48 | pieces contain no separator and join back to the input |
| Strings.SplitJoin | core/comm_thread.py:48 | splitting undoes joining separator-free pieces |
| Strings.StripIsInfix | core/comm_thread.py:48 | `strip()` removes only leading and trailing white space |
| Strings.ContainsConcat | core/notifications.py:91 | `t in p + s` holds iff t occurs in s or at a position starting inside p |
| Json.PyTypeName | simulator.py:54-56 | the type name in the exception text is "dict" exactly for objects |
| Json.Get | simulator.py:37 | `dict.get` finds exactly the present keys |
| Json.StatusMessage | simulator.py:42 | a response has exactly the keys status and message, with the given texts |
| Simulator.StatusText | simulator.py:80-97 | status strings are "OK" or "Faulty Sensor"; "OK" exactly for a healthy reading |
| Simulator.Drifted | simulator.py:74-77 | the stored value after drift and clamp is within `[low*0.9, high*1.1]` |
| Simulator.DriftOffsetBounded | simulator.py:74 | the drift term lies within `±span*drift_amount` |
| Simulator.DriftedMovesLittle | simulator.py:74-77 | from a value in the band, the stored value moves by at most `span*drift_amount` |
| Simulator.StepSensor | simulator.py:70-116 | per-sensor tick. The stored value is always the drifted one. An active fault emits 0.0 "Faulty Sensor" and keeps its timer. An expired fault clears and emits the drifted value. A fault draw starts the timer at `now`. A spike draw emits the spike value, sets no timer and stores no change. Otherwise the drifted value is emitted. The timer is set iff the reading is faulty |
| Simulator.StepOne | simulator.py:70-116 | the loop body's statements compute exactly `StepSensor` |
| Simulator.TickUpTo | simulator.py:69-117 | the loop run with any per-sensor step: after i sensors the batch has i readings, every configured id is still present, and the pause flag is kept |
| Simulator.TickUpToKeys | simulator.py:69-117 | the loop only overwrites configured ids, so both dictionaries keep their keys |
| Simulator.TickUpToLeaves | simulator.py:69-117 | sensors not yet visited keep their value and timer |
| Simulator.TickUpToAt | simulator.py:69-117 | a visited sensor holds its own step's value, timer and reading, unaffected by later sensors |
| Simulator.Tick | simulator.py:58-117 | after a tick both dictionaries still have exactly the configured ids as keys, the pause flag is kept, and the batch has one reading per sensor |
| Simulator.TickLoop | simulator.py:69-117 | the loop over the two dictionaries, one `StepOne` per sensor in configuration order, computes exactly `Tick` |
| Simulator.TickAt | simulator.py:69-117 | the whole tick acts on each sensor exactly as its own `StepSensor` |
| Simulator.TickKeepsBand | simulator.py:76-77 | after a tick every stored value is in its clamp band |
| Simulator.TickDriftBounded | simulator.py:74-77 | after a tick every stored value is within `span*drift_amount` of the previous one |
| Simulator.TickBatchShape | simulator.py:108-116 | one reading per configured sensor, in order, with id/name/type/unit copied, the draw's timestamp, and status "Faulty Sensor" iff the timer is set |
| Simulator.Recentre | simulator.py:28-30 | reset defines a value for every configured id and keeps other keys |
| Simulator.RecentreAt | simulator.py:28-30 | each configured id gets `(low+high)/2` |
| Simulator.RecentreLeaves | simulator.py:28-30 | keys outside the configuration are untouched |
| Simulator.ApplyCommand | simulator.py:34-56 | the response is always an object with status OK or ERROR and a message. ERROR changes no state. Values are either unchanged or reset |
| Simulator.ResetCommand | simulator.py:40-42 | RESET: every value is the midpoint, every timer is None, pause is kept, response is `{"status":"OK","message":"Simulation Reset"}` |
| Simulator.ClearFaultsCommand | simulator.py:43-46 | CLEAR_FAULTS: every timer is None, values and pause are unchanged, message "Faults Cleared" |
| Simulator.ToggleCommand | simulator.py:47-51 | TOGGLE_SIM flips only `paused`, and reports the new flag and "Simulation Paused"/"Simulation Resumed" |
| Simulator.ToggleTwice | simulator.py:47-48 | toggling twice restores the state |
| Simulator.UnknownCommand | simulator.py:52-53 | any other or missing command gives ERROR "Unknown Command" and no state change |
| Simulator.NonObjectCommand | simulator.py:54-56 | a non-object command gives ERROR with the AttributeError text (not "Unknown Command") and no state change |
| Simulator.CommandKeepsBand | simulator.py:26-56 | no command moves a stored value out of its band |
| Simulator.Next | simulator.py:142-187 | one engine step, command or broadcast, keeps the state's shape |
| Simulator.Run | simulator.py:142-187 | any run of steps keeps the state's shape |
| Simulator.NextKeepsBand | simulator.py:142-187 | one engine step keeps every stored value in its band |
| Simulator.RunKeepsBand | simulator.py:142-187 | any interleaving of commands and ticks keeps every stored value in its band |
| Simulator.RunTicks | simulator.py:58-117 | consecutive ticks give one batch per tick, each with one reading per sensor |
| Simulator.FaultPersists | simulator.py:83-87 | while `now - since < fault_duration`, every tick keeps the timer and emits 0.0 "Faulty Sensor" |
| Simulator.FaultRecovers | simulator.py:88-91 | once the duration has passed, the timer clears and the drifted value is emitted as OK |
| Simulator.ClearFaultsThenTick | simulator.py:93-99 | after CLEAR_FAULTS, the next tick's reading is faulty iff its check draw is below `fault_prob` |
| Simulator.SpikeLeavesBand | simulator.py:101-106 | for S01, the upward spike and the fault value 0.0 lie outside the clamp band |
| Simulator.SpikeOutOfLimits | simulator.py:101-106 | for every well-formed sensor a spike is out of limits: above `high` upward, below `low` downward |
| Simulator.SpikeBand | simulator.py:101-106 | the upward spike leaves the clamp band iff `high > 2 * low`, the downward one iff `2 * high > 3 * low` |
| Simulator.PressureSpikesInBand | simulator.py:101-106 | S02's spikes are 1280 and 720, both inside its clamp band |
| Simulator.SensorSimulator.constructor | simulator.py:11-24 | empty or absent configurations fall back to the defaults; values start at the midpoints, with no faults and not paused |
| Simulator.SensorSimulator.ResetSimulation | simulator.py:26-32 | the new state is `Reset` of the old one |
| Simulator.SensorSimulator.ProcessCommand | simulator.py:34-56 | the new state and the response are those of `ApplyCommand` |
| Simulator.SensorSimulator.GenerateData | simulator.py:58-117 | the new state and the batch are those of `Tick` |
| Simulator.SensorSimulator.ServeIteration | simulator.py:145-187 | one loop iteration does what `ServeStep` says |
| Simulator.BatchFields | simulator.py:108-117 | the broadcast object has exactly one key per configured id |
| Simulator.SelectTimeout | simulator.py:145-147 | the select timeout is non-negative, and zero exactly when a broadcast is already due |
| Simulator.FullWaitMakesBroadcastDue | simulator.py:147-178 | a select that waited its full timeout finds the broadcast due |
| Simulator.TimerPhase | simulator.py:177-187 | the timer phase sends nothing, or appends exactly one batch frame and the connection stays open |
| Simulator.ServeStep | simulator.py:145-187 | at most a response, then a batch, is sent. Every response is a status object. The response write and the batch write succeed or fail separately, and a failed write is the last one attempted: when the connection ends, at most the response written before it was sent |
| Simulator.AckThenBrokenPipe | simulator.py:166-186 | a response is written, the batch write then fails: the response stands, the tick's state change stands, and the connection ends |
| Simulator.PausedTimerSendsNothing | simulator.py:178-187 | when paused and due: no batch, no state change, but `last_update` is reset |
| Simulator.RunningTimerBroadcasts | simulator.py:178-183 | when running and due: exactly the tick's batch is sent, and the state becomes the tick's state |
| Simulator.UnparsableChunkIgnored | simulator.py:164-172 | a non-empty chunk that is not one JSON value is dropped, and the step behaves as a plain timeout |
| Simulator.UnknownCommandKeepsConnection | simulator.py:164-170 | an unknown command is answered with ERROR "Unknown Command" on a connection that stays open |
| Simulator.DisconnectLeavesState | simulator.py:156-175 | EOF, a read of no bytes, or a reset ends the connection with nothing sent and no state change |
| Simulator.SliceLength | simulator.py:206 | Python's `[:n]` length: n when `0 <= n <= len`, never more than len |
| Simulator.ExtendConfig | simulator.py:198-219 | the slice or the appending loop builds exactly `Extended(base, n)` |
| Simulator.GenerateDynamicConfig | simulator.py:198-219 | the result is exactly `DynamicConfig(n)`, the base table extended to n |
| Simulator.ExtendedShape | simulator.py:198-219 | extending a well-formed table numbered `S01`, `S02`, ... gives n entries for n >= 0: the table itself, then "Extra Sensor i" with id `S{i:02d}`; the numbering continues and the result is well formed |
| Simulator.DynamicConfigShape | simulator.py:198-219 | n entries for n >= 0. A prefix of the base when n <= 5. Otherwise the base, then "Extra Sensor i" (Generic, Units, 0-100) with id `S{i:02d}`. Ids are numbered consecutively and the result is well formed |
| CommThread.StatusIn | core/comm_thread.py:54 | `"status" in x` is defined for dicts, lists and strings, and raises for every other JSON value |
| CommThread.ClassifyAsWritten | core/comm_thread.py:50-62 | as written: a piece crashes the handler iff it parses to a scalar. It is delivered only if it parses and has no status key |
| CommThread.Classify | core/comm_thread.py:50-62 | corrected: never crashes. Delivers iff the piece parses to an object without "status", acknowledges iff it has one |
| CommThread.Pieces | core/comm_thread.py:48 | the pieces are newline-free and join back to the stripped chunk |
| CommThread.HandleAsWritten | core/comm_thread.py:49-62 | as written: the chunk crashes iff some piece crashes |
| CommThread.HandleOne | core/comm_thread.py:50-62 | one piece alone: corrected, it is emitted exactly when classified as data; as written, it is emitted when delivered and crashes the chunk when it crashes |
| CommThread.HandleConcat | core/comm_thread.py:49-62 | corrected: a chunk's emissions are those of its parts, in chunk order |
| CommThread.HandleAsWrittenConcat | core/comm_thread.py:49-62 | as written: after a part that does not crash, the next part is handled as if alone, its emissions following the first part's |
| CommThread.HandleAsWrittenCrashed | core/comm_thread.py:49-75 | as written: once a part crashes, nothing after it counts |
| CommThread.SkippedPiece | core/comm_thread.py:50-62 | an empty piece or one `json.loads` rejects is skipped by both handlers; it emits nothing and the pieces after it are still handled |
| CommThread.Handle | core/comm_thread.py:49-62 | corrected: everything emitted is an object without "status" |
| CommThread.CrashLosesRest | core/comm_thread.py:49-75 | as written: after a crashing piece, the rest of the chunk is lost |
| CommThread.AgreeOnObjects | core/comm_thread.py:49-62 | when every parsed piece is an object, the as-written and corrected handlers agree |
| CommThread.ScalarLineLosesData | core/comm_thread.py:52-54 | concrete input `"5\n{}"`: as written nothing is delivered and the reader resets; corrected, `{}` is delivered |
| CommThread.SplitMessageLost | core/comm_thread.py:43-50 | a frame split across two reads is dropped, while the same frame in one read is delivered |
| CommThread.DataOnly | core/comm_thread.py:54-60 | the frames kept are those without "status" |
| CommThread.WirePieces | core/comm_thread.py:47-48 | a chunk of whole newline-terminated frames splits into exactly the serialised frames |
| CommThread.WireRoundTrip | core/comm_thread.py:48-62 | for frames the server writes with newline terminators, the client receives exactly the data frames, in order |
| CommThread.WireRoundTripAsWritten | core/comm_thread.py:48-62 | the same holds for the as-written handler when every frame is an object |
| CommThread.DataOnlyFrames | core/comm_thread.py:54-60 | of the server's frames, the client keeps exactly the batches |
| CommThread.ClientSeesBatches | core/comm_thread.py:48-62 | the server's response and batch frames reach the client as exactly its batches, with no crash |
| CommThread.CommandPayload | core/comm_thread.py:24-25 | the payload is `{"command": c}` plus exactly the keyword fields |
| CommThread.Client.constructor | core/comm_thread.py:13-19 | a new client has no socket and has written nothing |
| CommThread.Client.Connect | core/comm_thread.py:36-38 | a connect gives a live socket |
| CommThread.Client.Disconnect | core/comm_thread.py:36-37 | a failed connect, or the end of the receive loop, leaves a socket set whose writes fail |
| CommThread.Client.SendCommand | core/comm_thread.py:21-30 | with no socket or a dead one, nothing is written; otherwise exactly `dumps(payload)` is appended |
| CommThread.CommandStream | core/comm_thread.py:28 | commands go out without newline terminators |
| Notifications.BodyLines | core/notifications.py:62-73 | the e-mail body has eleven lines |
| Notifications.FullMessageIsJoin | core/notifications.py:62-73 | the e-mail body is its eleven lines joined by newlines, with no trailing newline |
| Notifications.FullMessageLines | core/notifications.py:62-73 | the body splits back into header, rule, event type, sensor, id, time, blank, "Message:", message, rule and closing |
| Notifications.SubjectIcon | core/notifications.py:87-92 | an alert's desktop icon is Critical iff its level contains "FAULT" |
| Notifications.FaultAlertIsCritical | core/notifications.py:90-92 | FAULT alerts get the Critical icon and LIMIT alerts the Warning icon |
| Notifications.GateReopensAtCooldown | core/notifications.py:49-56 | after an alert at t, the gate for that sensor opens exactly at `t + cooldown`, and not before |
| Notifications.GatePerSensor | core/notifications.py:50-56 | recording one sensor's alert does not affect another sensor's gate |
| Notifications.FirstAlert | core/notifications.py:50 | a sensor never alerted before passes iff `now >= cooldown` |
| Notifications.Deliveries | core/notifications.py:78-94 | the order is desktop (only with a tray), then e-mail with the full body, then SMS with the short message |
| Notifications.Alert | core/notifications.py:49-85 | a suppressed alert changes nothing. An accepted one records `now` for its sensor only and is delivered |
| Notifications.Throttle | core/notifications.py:49-56 | no more alerts pass than calls are made, and each one that passes is one of the calls |
| Notifications.ThrottleSpaced | core/notifications.py:49-56 | alerts that pass for one sensor are at least `cooldown` apart, and at least `cooldown` after the recorded time |
| Notifications.AlertAllIsThrottle | core/notifications.py:44-85 | a run of `send_alert` calls records the times of exactly the calls `Throttle` accepts and delivers exactly those calls, in order |
| Notifications.NotificationManager.constructor | core/notifications.py:10-31 | cooldown 10.0, no recorded alerts, a tray icon iff a parent is given |
| Notifications.NotificationManager.SendAlert | core/notifications.py:44-85 | the new state is `Alert` of the old one |
| Notifications.NotificationManager.SendDesktop | core/notifications.py:87-94 | shows one message with the title's icon when there is a tray, and nothing otherwise |
| Dashboard.Lookup | gui/dashboard.py:433-440 | finds a sensor iff its id is configured |
| Dashboard.AlarmFor | gui/dashboard.py:456-492 | no alarm iff status "OK" and `low <= value <= high`. The alarm is a fault iff status is not "OK" |
| Dashboard.AlarmCases | gui/dashboard.py:456-492 | the messages are "FAULT: s (under fixation)", then "LOW LIMIT: v < low", then "HIGH LIMIT: v > high", tested in that order |
| Dashboard.SpikeRaisesLimitAlarm | gui/dashboard.py:456-492 | a spike the simulator emits raises a LIMIT alarm on the dashboard: HIGH for an upward spike, LOW for a downward one |
| Dashboard.AlarmTextsDistinguishKinds | gui/dashboard.py:456-497 | fault and limit messages always differ, so a switch between them is logged |
| Dashboard.Push | gui/dashboard.py:517-518 | a history never exceeds 100 points and ends with the new point |
| Dashboard.PushAllKeepsLatest | gui/dashboard.py:20-23 | a history holds exactly the last up to 100 points appended, oldest first |
| Dashboard.Observe | gui/dashboard.py:433-518 | each reading keeps one lockstep history per configured sensor within the cap |
| Dashboard.UnknownSensorIgnored | gui/dashboard.py:432-433 | a reading for an unconfigured id changes nothing |
| Dashboard.ObserveKnown | gui/dashboard.py:489-518 | histories grow by this point; the record becomes the message or is cleared; a line is logged and an alert requested iff the message differs from the recorded one; sent to the log of its kind, with level FAULT or LIMIT |
| Dashboard.RepeatIsQuiet | gui/dashboard.py:494-510 | the same reading twice in a row is logged and alerted at most once |
| Dashboard.RecoveryRearms | gui/dashboard.py:511-514 | after a normal reading, the same alarm is logged again |
| Dashboard.UpdateUpTo | gui/dashboard.py:432-518 | the entries are processed in order, and there is at most one alert request per entry |
| Dashboard.Update | gui/dashboard.py:427-518 | a whole data dict keeps the history invariant |
| Dashboard.OnlyUnknownIgnored | gui/dashboard.py:432-433 | a dict of only unconfigured ids changes nothing and requests nothing |
| Dashboard.FeedIsUpdateThenSend | gui/dashboard.py:432-518 | sending each alert as soon as its entry asks for it gives the same panel and notifier as folding the panel first and then sending every requested alert in order |
| Dashboard.ThrottledRequestDropped | gui/dashboard.py:503-508 | an alert requested within its sensor's cooldown changes nothing in the notifier |
| Dashboard.NextLock | gui/dashboard.py:364-402 | unlocked always locks, logging "Console Locked.". Locked opens iff the dialog is accepted with "admin123". A cancel logs nothing |
| Dashboard.LockNeedsPassword | gui/dashboard.py:364-402 | starting locked, the console is unlocked only right after a press that found it locked and was answered with "admin123" |
| Dashboard.RelockIsSticky | gui/dashboard.py:365-372 | from unlocked, a press locks it; a cancelled press then leaves it locked |
| Dashboard.Dashboard.constructor | gui/dashboard.py:13-34 | empty histories for every configured sensor, no alarms, locked, and a fresh notifier with a tray |
| Dashboard.Dashboard.UpdateData | gui/dashboard.py:427-519 | the new panel is `Update` of the old one. The requested alerts go to `send_alert` in order. The lock and the system log are untouched |
| Dashboard.Dashboard.FeedAll | gui/dashboard.py:432-518 | the loop feeds the entries one at a time, in order; the lock and the system log are untouched |
| Dashboard.Dashboard.ObserveEntry | gui/dashboard.py:433-518 | one entry updates the panel as `Observe` and sends its alert, if any |
| Dashboard.Dashboard.RecordAlarm | gui/dashboard.py:489-514 | records, logs and notifier change as `Dedup` says |
| Dashboard.Dashboard.ClearLocalLogs | gui/dashboard.py:408-415 | both alarm logs and all alarm records are cleared and "Local Logs Cleared." is logged; histories and lock unchanged |
| Dashboard.Dashboard.UnlockConsole | gui/dashboard.py:364-402 | lock state and log line follow `NextLock`; buttons are enabled iff unlocked |
| Dashboard.Dashboard.SendRemoteCommand | gui/dashboard.py:404-406 | the command is sent through the client and "Command Sent: c" is logged |
| Dashboard.ClearedAlarmRelogged | gui/dashboard.py:408-415 | after clearing, a sensor still in alarm is logged and alerted again |

## Left out

- Sockets, `select`, `accept`, `recv`, `sendall`, the `QThread` and its signals, the reconnect loop and the stop events. These are I/O and concurrency. The serving loop is modelled as one step over the events `Readable(chunk)`, `Eof`, `ReadReset` and `Timeout`.
- The 1024- and 4096-byte read limits and UTF-8 decoding. A chunk is modelled as a string.
- JSON parsing and serialisation, `round(x, 2)`, `str` on floats and strftime. These are function parameters, so the model fixes no textual format for numbers or times.
- `time.time()` is read several times per broadcast (lines 67, 114, 178, 187). Each reading is an input, and one `now` serves the whole tick.
- `update_data` reads `time.time()` once. `send_alert` reads it again for each alert, but the model gives every alert of one `update_data` call that same `now`. Likewise the log timestamp `time.strftime("%H:%M:%S")` is read for each new alarm, but the model gives every log line of one `update_data` call the same `clock` string.
- The order of keys in a JSON object is not modelled: objects are maps. The dashboard's input is the ordered list of the data dict's `(sid, reading)` pairs, with `value` and `status` already read out. A reading missing a field, which raises a KeyError in the PyQt slot, is not modelled.
- Table cells, colours, plots, message boxes, tooltips and the tray widget are left out. `set_controls_enabled` is kept only as the `controlsEnabled` flag.
- SMTP and Twilio delivery, and the mock prints used while they are disabled. A delivery is recorded as the message handed to each channel.
- Notifications.NotificationManager.SendAlert: takes `level` as a required argument; the default `level="WARNING"` is not modelled, because every caller passes a level.
- `socket_lock` and the logging of send failures in `send_command`. A dead socket is modelled as writing nothing, and a write is either whole or absent: a `sendall` that fails part-way through is not modelled, on either side.
- Floats are modelled as `real`: there is no rounding in the drift and clamp arithmetic, and no NaN or infinity. The simulation parameters are a record with every field present, so the defaults of `.get("fault_duration", 20.0)` (simulator.py:66) and `.get("update_rate", 0.5)` (simulator.py:140) for a partial `sim_config` dict are not modelled, nor is a configuration dict with a key written twice.
- `update_status` and `closeEvent`: connection-label styling and shutdown.
- main.py and the argparse wiring of simulator.py.
- Simulator.SensorSimulator.ResetSimulation: requires the stored value map to range over configured ids only. The constructor guarantees that.
- Simulator.SensorSimulator.constructor: requires distinct ids in a caller-supplied configuration. A Python dict guarantees that.

## Findings

| source | as written | input that shows it | evidently intended | confidence | as-written member | corrected member |
|---|---|---|---|---|---|---|
| core/comm_thread.py:54 | `"status" in reading` is evaluated on any parsed JSON value. On a number, boolean or null it raises TypeError, which no inner handler catches. The handler at line 73 then drops the connection, and the rest of the chunk is lost | a chunk `"5\n{}"`: the `{}` batch after the scalar line is never emitted, and the reader reconnects | pieces that are not objects are skipped like unparsable ones, and later pieces are still processed | not executed | CommThread.ScalarLineLosesData | CommThread.Classify |

The as-written handler assumes that `data_received = pyqtSignal(dict)` (core/comm_thread.py:10) emits a list or a string that lacks "status" as it is. If the typed signal refuses such a value with a TypeError, lists and strings take the same reconnect path as numbers; the model does not settle this library behaviour.
